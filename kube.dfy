/** The Kubernetes API objects (core/v1) the node agent reads and produces,
    reduced to the fields it touches. Timestamps are plain integers. */
module Kube {
  import opened Common

  datatype ObjectMeta = ObjectMeta(
    name: string,
    namespace: string,
    uid: string,
    annotations: Option<map<string, string>>,
    creationTimestamp: int)

  /** A container declaration; ports, environment, resources and volume
      mounts are not read by the node agent and are left out. */
  datatype Container = Container(
    name: string,
    image: string,
    command: seq<string>,
    args: seq<string>,
    workingDir: string,
    stdin: bool,
    stdinOnce: bool,
    tty: bool)

  datatype Volume = Volume(name: string)

  datatype PodSpec = PodSpec(nodeName: string, volumes: seq<Volume>, containers: seq<Container>)

  /** `PhaseUnset` is Go's zero value, the empty phase string. */
  datatype PodPhase = PhaseUnset | PodPending | PodRunning | PodSucceeded | PodFailed | PodUnknown

  /** v1.ContainerState: the one populated member of Waiting, Running and
      Terminated. */
  datatype ContainerState =
    | Waiting(reason: string, message: string)
    | Running(startedAt: int)
    | Terminated(exitCode: int, reason: string, message: string, startedAt: int, finishedAt: int)

  datatype ContainerStatus = ContainerStatus(
    name: string,
    image: string,
    imageId: string,
    containerId: string,
    ready: bool,
    state: ContainerState)

  /** The pod conditions list is always empty here and is left out. */
  datatype PodStatus = PodStatus(
    phase: PodPhase,
    message: string,
    reason: string,
    hostIp: string,
    podIp: string,
    startTime: Option<int>,
    containerStatuses: seq<ContainerStatus>)

  datatype Pod = Pod(kind: string, apiVersion: string, meta: ObjectMeta, spec: PodSpec, status: PodStatus)

  // ---------------------------------------------------------------------
  // Node objects.

  datatype Quantity = Parsed(text: string) | Value(amount: int)

  datatype ConditionStatus = ConditionTrue | ConditionFalse | ConditionUnknown

  datatype NodeCondition = NodeCondition(
    conditionType: string,
    status: ConditionStatus,
    lastHeartbeatTime: int,
    lastTransitionTime: int,
    reason: string,
    message: string)

  datatype NodeAddress = NodeAddress(addressType: string, address: string)

  datatype NodeDaemonEndpoints = NodeDaemonEndpoints(kubeletPort: Int32)

  datatype NodeSystemInfo = NodeSystemInfo(operatingSystem: string, architecture: string, kubeletVersion: string)

  datatype NodeStatus = NodeStatus(
    capacity: map<string, Quantity>,
    allocatable: map<string, Quantity>,
    conditions: seq<NodeCondition>,
    addresses: seq<NodeAddress>,
    daemonEndpoints: NodeDaemonEndpoints,
    nodeInfo: NodeSystemInfo)

  /** The node object the framework hands to ConfigureNode, which fills its
      status in place. */
  class Node {
    var name: string
    var status: NodeStatus

    constructor (name: string, status: NodeStatus)
      ensures this.name == name && this.status == status
    {
      this.name := name;
      this.status := status;
    }
  }
}
