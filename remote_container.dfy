/** The container half of the runtime client (pkg/remote/container.go): the
    container-creation request built from a container declaration, and the
    container calls. */
module RemoteContainer {
  import opened Common
  import opened Cri
  import Kube

  /** The log file name `{name}-{attempt}.log`. */
  function LogPath(name: string, attempt: Uint32): (p: string)
    ensures |p| > |name| + 5 && p[..|name|] == name && p[|p| - 4..] == ".log"
    ensures p[|name|] == '-' && IsDigits(p[|name| + 1..|p| - 4])
    ensures ParseDecimal(p[|name| + 1..|p| - 4]) == attempt
  {
    var digits := NatToString(attempt);
    var p := name + "-" + digits + ".log";
    assert p[|name| + 1..|p| - 4] == digits;
    ParseNatToString(attempt);
    p
  }

  /** Two attempts of one container never share a log file. */
  lemma LogPathInjective(name: string, a: Uint32, b: Uint32)
    requires LogPath(name, a) == LogPath(name, b)
    ensures a == b
  {
    var p := LogPath(name, a);
    var da, db := NatToString(a), NatToString(b);
    assert |da| == |db|;
    assert da == p[|name| + 1..|p| - 4];
    assert db == p[|name| + 1..|p| - 4];
    NatToStringInjective(a, b);
  }

  /** The container request for one declared container. The image is the
      reference resolved by the pull, not the declared image; the pod and
      the volume root are not read (the mounts code is commented out in the
      source), and it never fails. */
  function GenerateContainerConfig(container: Kube.Container, pod: Kube.Pod, imageRef: string, podVolRoot: string, attempt: Uint32): (r: (ContainerConfig, Option<Error>))
    ensures r.1 == None
    ensures r.0.metadata == ContainerMetadata(container.name, attempt)
    ensures r.0.image == ImageSpec(imageRef)
    ensures r.0.command == container.command && r.0.args == container.args
    ensures r.0.workingDir == container.workingDir
    ensures r.0.stdin == container.stdin && r.0.stdinOnce == container.stdinOnce && r.0.tty == container.tty
    ensures r.0.logPath == LogPath(container.name, attempt)
  {
    var config := ContainerConfig(
      ContainerMetadata(container.name, attempt),
      ImageSpec(imageRef),
      container.command,
      container.args,
      container.workingDir,
      LogPath(container.name, attempt),
      container.stdin,
      container.stdinOnce,
      container.tty);
    (config, None)
  }

  /** Neither the pod nor the volume root influences the request. */
  lemma ContainerConfigIgnoresPodAndVolumes(container: Kube.Container, pod1: Kube.Pod, pod2: Kube.Pod, imageRef: string, vol1: string, vol2: string, attempt: Uint32)
    ensures GenerateContainerConfig(container, pod1, imageRef, vol1, attempt) == GenerateContainerConfig(container, pod2, imageRef, vol2, attempt)
  {
  }

  /** CreateContainer sends the sandbox id, the container request and the
      sandbox request, and answers with the new container id, or "" and the
      error. The sandbox id is not checked. */
  function CreateContainer(view: RuntimeView, config: ContainerConfig, podConfig: PodSandboxConfig, pId: string): (r: Reply<string>)
    ensures r.calls == [CreateContainerCall(pId, config, podConfig)]
    ensures r.err.None? <==> CreateContainerCall(pId, config, podConfig) !in view.failing
    ensures r.err.Some? ==> r.err == Some(RuntimeFailure) && r.value == ""
    ensures r.err.None? ==> r.value == view.AssignedId(CreateContainerCall(pId, config, podConfig))
  {
    var call := CreateContainerCall(pId, config, podConfig);
    if call in view.failing then Reply("", Some(RuntimeFailure), [call])
    else Reply(view.AssignedId(call), None, [call])
  }

  function StartContainer(view: RuntimeView, cId: string): (r: Reply<()>)
    ensures cId == "" ==> r.err == Some(InvalidInput) && r.calls == []
    ensures cId != "" ==> r.calls == [StartContainerCall(cId)]
    ensures cId != "" ==> (r.err.Some? <==> StartContainerCall(cId) in view.failing)
    ensures r.err.Some? ==> r.err == Some(InvalidInput) || r.err == Some(RuntimeFailure)
  {
    if cId == "" then Reply((), Some(InvalidInput), [])
    else
      var call := StartContainerCall(cId);
      Reply((), if call in view.failing then Some(RuntimeFailure) else None, [call])
  }

  function GetContainerCriStatus(view: RuntimeView, cId: string): (r: Reply<Option<ContainerStatus>>)
    ensures cId == "" ==> r.err == Some(InvalidInput) && r.value.None? && r.calls == []
    ensures cId != "" ==> r.calls == [ContainerStatusCall(cId, false)]
    ensures r.err.None? <==> r.value.Some?
    ensures r.err.None? <==> cId != "" && ContainerStatusCall(cId, false) !in view.failing && cId in view.containerStatus
    ensures r.value.Some? ==> r.value.value == view.containerStatus[cId]
  {
    if cId == "" then Reply(None, Some(InvalidInput), [])
    else
      var call := ContainerStatusCall(cId, false);
      if call in view.failing || cId !in view.containerStatus then Reply(None, Some(RuntimeFailure), [call])
      else Reply(Some(view.containerStatus[cId]), None, [call])
  }

  /** The containers the runtime lists for one sandbox. The id is not
      checked: with "" the filter keeps every container. */
  function GetContainersForSandbox(view: RuntimeView, psId: string): (r: Reply<seq<Container>>)
    ensures r.calls == [ListContainersCall(ContainerFilter("", None, psId))]
    ensures r.err.None? <==> ListContainersCall(ContainerFilter("", None, psId)) !in view.failing
    ensures r.err.Some? ==> r.err == Some(RuntimeFailure) && r.value == []
    ensures r.err.None? ==> forall c :: c in r.value <==> c in view.containers && (psId == "" || c.podSandboxId == psId)
  {
    var call := ListContainersCall(ContainerFilter("", None, psId));
    if call in view.failing then Reply([], Some(RuntimeFailure), [call])
    else Reply(FilterContainers(view.containers, ContainerFilter("", None, psId)), None, [call])
  }
}
