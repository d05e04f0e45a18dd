/** The Container Runtime Interface types (runtime.v1alpha2) the node agent
    uses, and the container runtime itself as an oracle: a fixed table of
    what the runtime reports, which calls it fails, and a ghost log of every
    call issued to it. */
module Cri {
  import opened Common

  datatype ContainerState = ContainerCreated | ContainerRunning | ContainerExited | ContainerUnknown
  datatype SandboxState = SandboxReady | SandboxNotReady

  datatype PodSandboxMetadata = PodSandboxMetadata(name: string, uid: string, namespace: string, attempt: Uint32)
  datatype ContainerMetadata = ContainerMetadata(name: string, attempt: Uint32)
  datatype ImageSpec = ImageSpec(image: string)

  /** Labels, DNS, hostname, port mappings and Linux options are not filled
      by the node agent and are left out. */
  datatype PodSandboxConfig = PodSandboxConfig(
    metadata: PodSandboxMetadata,
    annotations: Option<map<string, string>>,
    logDirectory: string)

  /** Environment, labels, annotations, Linux options and mounts are not
      filled by the node agent and are left out. */
  datatype ContainerConfig = ContainerConfig(
    metadata: ContainerMetadata,
    image: ImageSpec,
    command: seq<string>,
    args: seq<string>,
    workingDir: string,
    logPath: string,
    stdin: bool,
    stdinOnce: bool,
    tty: bool)

  datatype PodSandboxNetworkStatus = PodSandboxNetworkStatus(ip: string)

  /** Timestamps are plain integers (nanoseconds in the runtime's answers). */
  datatype PodSandboxStatus = PodSandboxStatus(
    id: string,
    metadata: PodSandboxMetadata,
    state: SandboxState,
    createdAt: int,
    network: Option<PodSandboxNetworkStatus>)

  datatype ContainerStatus = ContainerStatus(
    id: string,
    metadata: ContainerMetadata,
    state: ContainerState,
    createdAt: int,
    startedAt: int,
    finishedAt: int,
    exitCode: int,
    image: Option<ImageSpec>,
    imageRef: string,
    reason: string,
    message: string)

  /** An entry of a ListPodSandbox answer. */
  datatype PodSandbox = PodSandbox(id: string, metadata: PodSandboxMetadata, state: SandboxState)

  /** An entry of a ListContainers answer. */
  datatype Container = Container(id: string, podSandboxId: string, metadata: ContainerMetadata, state: ContainerState)

  /** Empty fields do not filter (label selectors are left out). */
  datatype PodSandboxFilter = PodSandboxFilter(id: string, state: Option<SandboxState>)
  datatype ContainerFilter = ContainerFilter(id: string, state: Option<ContainerState>, podSandboxId: string)

  /** One request sent to the runtime or image service, with its arguments. */
  datatype Call =
    | RunPodSandboxCall(config: PodSandboxConfig)
    | StopPodSandboxCall(podSandboxId: string)
    | RemovePodSandboxCall(podSandboxId: string)
    | ListPodSandboxCall(sandboxFilter: PodSandboxFilter)
    | PodSandboxStatusCall(podSandboxId: string, verbose: bool)
    | ListContainersCall(containerFilter: ContainerFilter)
    | ContainerStatusCall(containerId: string, verbose: bool)
    | CreateContainerCall(sandboxId: string, containerConfig: ContainerConfig, sandboxConfig: PodSandboxConfig)
    | StartContainerCall(containerId: string)
    | PullImageCall(imageSpec: ImageSpec)
  {
    /** Calls that only read the runtime's state. */
    predicate IsQuery() {
      ListPodSandboxCall? || PodSandboxStatusCall? || ListContainersCall? || ContainerStatusCall?
    }
  }

  /** What the runtime answers. A call in `failing` is answered with an
      error; a status asked for an id the tables lack, or an image the
      registry lacks, is answered with an error too. */
  datatype RuntimeView = RuntimeView(
    sandboxes: seq<PodSandbox>,
    sandboxStatus: map<string, PodSandboxStatus>,
    containers: seq<Container>,
    containerStatus: map<string, ContainerStatus>,
    imageRefs: map<string, string>,
    assignedIds: map<Call, string>,
    failing: set<Call>)
  {
    /** The id a successful RunPodSandbox or CreateContainer answers with;
        a runtime that assigns none answers with the empty id. */
    function AssignedId(c: Call): string {
      if c in assignedIds then assignedIds[c] else ""
    }
  }

  /** A call's Go result pair plus the requests it sent. */
  datatype Reply<T> = Reply(value: T, err: Option<Error>, calls: seq<Call>)

  predicate SandboxMatches(s: PodSandbox, f: PodSandboxFilter) {
    (f.id == "" || s.id == f.id) && (f.state.None? || s.state == f.state.value)
  }

  predicate ContainerMatches(c: Container, f: ContainerFilter) {
    && (f.id == "" || c.id == f.id)
    && (f.state.None? || c.state == f.state.value)
    && (f.podSandboxId == "" || c.podSandboxId == f.podSandboxId)
  }

  /** The runtime's ListPodSandbox answer: the listed sandboxes the filter
      keeps, in listing order. */
  function FilterSandboxes(ss: seq<PodSandbox>, f: PodSandboxFilter): (r: seq<PodSandbox>)
    ensures forall s :: s in r <==> s in ss && SandboxMatches(s, f)
    ensures |r| <= |ss|
  {
    if ss == [] then []
    else if SandboxMatches(ss[0], f) then [ss[0]] + FilterSandboxes(ss[1..], f)
    else FilterSandboxes(ss[1..], f)
  }

  /** The runtime's ListContainers answer. */
  function FilterContainers(cs: seq<Container>, f: ContainerFilter): (r: seq<Container>)
    ensures forall c :: c in r <==> c in cs && ContainerMatches(c, f)
    ensures |r| <= |cs|
  {
    if cs == [] then []
    else if ContainerMatches(cs[0], f) then [cs[0]] + FilterContainers(cs[1..], f)
    else FilterContainers(cs[1..], f)
  }

  lemma {:induction false} EmptySandboxFilterKeepsAll(ss: seq<PodSandbox>)
    ensures FilterSandboxes(ss, PodSandboxFilter("", None)) == ss
  {
    if ss != [] {
      EmptySandboxFilterKeepsAll(ss[1..]);
    }
  }

  /** PullImage of pkg/remote/image.go, as an oracle: the registry's
      resolved reference, or an error. */
  function PullImage(view: RuntimeView, image: string): (r: Reply<string>)
    ensures r.calls == [PullImageCall(ImageSpec(image))]
    ensures r.err.None? <==> PullImageCall(ImageSpec(image)) !in view.failing && image in view.imageRefs
    ensures r.err.Some? ==> r.err == Some(RuntimeFailure) && r.value == ""
    ensures r.err.None? ==> r.value == view.imageRefs[image]
  {
    var call := PullImageCall(ImageSpec(image));
    if call in view.failing || image !in view.imageRefs then Reply("", Some(RuntimeFailure), [call])
    else Reply(view.imageRefs[image], None, [call])
  }

  /** The client facade of the runtime and image services: the runtime's
      answers and the log of every request sent to it. */
  class RuntimeClient {
    const view: RuntimeView
    ghost var log: seq<Call>

    constructor (view: RuntimeView)
      ensures this.view == view && log == []
    {
      this.view := view;
      log := [];
    }
  }
}
