/** The node description a provider reports (pkg/providers/node_config.go):
    capacity with defaults, the fixed condition list, the address list and
    the kubelet endpoint. The CPU count and the clock are parameters. */
module NodeConfig {
  import opened Common
  import Kube

  /** nodeDaemonEndpoints: the Go `int` port converted with `int32(port)`. */
  function NodeDaemonEndpoints(port: int): (r: Kube.NodeDaemonEndpoints)
    ensures (r.kubeletPort - port) % 0x1_0000_0000 == 0
    ensures -0x8000_0000 <= port < 0x8000_0000 ==> r.kubeletPort == port
  {
    Kube.NodeDaemonEndpoints(ToInt32(port))
  }

  /** nodeAddresses: the single internal address. */
  function NodeAddresses(internalIp: string): (r: seq<Kube.NodeAddress>)
    ensures |r| == 1 && r[0].addressType == "InternalIP" && r[0].address == internalIp
  {
    [Kube.NodeAddress("InternalIP", internalIp)]
  }

  const ConditionTypes: seq<string> := ["Ready", "OutOfDisk", "MemoryPressure", "DiskPressure", "NetworkUnavailable"]

  /** nodeConditions, every timestamp the single instant `now`. */
  function NodeConditions(now: int): (r: seq<Kube.NodeCondition>)
    ensures |r| == |ConditionTypes| && forall i :: 0 <= i < |r| ==> r[i].conditionType == ConditionTypes[i]
    ensures forall i :: 0 <= i < |r| ==> (r[i].status == Kube.ConditionTrue <==> r[i].conditionType == "Ready")
    ensures forall i :: 0 <= i < |r| ==> r[i].status != Kube.ConditionUnknown
    ensures forall i :: 0 <= i < |r| ==> r[i].lastHeartbeatTime == now && r[i].lastTransitionTime == now
  {
    [ Kube.NodeCondition("Ready", Kube.ConditionTrue, now, now, "KubeletReady", "virtual-kubelet is ready."),
      Kube.NodeCondition("OutOfDisk", Kube.ConditionFalse, now, now, "KubeletHasSufficientDisk", "virtual-kubelet has sufficient disk space available"),
      Kube.NodeCondition("MemoryPressure", Kube.ConditionFalse, now, now, "KubeletHasSufficientMemory", "virtual-kubelet has sufficient memory available"),
      Kube.NodeCondition("DiskPressure", Kube.ConditionFalse, now, now, "KubeletHasNoDiskPressure", "virtual-kubelet has no disk pressure"),
      Kube.NodeCondition("NetworkUnavailable", Kube.ConditionFalse, now, now, "RouteCreated", "RouteController created a route") ]
  }

  /** Condition types are listed once each, so a reader can key them. */
  lemma ConditionTypesDistinct(now: int)
    ensures var r := NodeConditions(now);
      forall i, j :: 0 <= i < j < |r| ==> r[i].conditionType != r[j].conditionType
  {
  }

  /** 1024 * 1024 * 1024 * 500 bytes. */
  const DefaultMemory: nat := 1024 * 1024 * 1024 * 500
  const DefaultMaxPods: string := "200"

  /** nodeCapacity. An empty value is replaced by its default: the decimal
      CPU count, the decimal byte count of 500 GiB, or 200 pods; any other
      value is passed on unchanged. `resource.MustParse` is the
      uninterpreted text of a quantity. */
  function NodeCapacity(resourceCpu: string, resourceMemory: string, maxPod: string, numCpu: nat): (r: map<string, Kube.Quantity>)
    ensures r.Keys == {"cpu", "memory", "pods"}
    ensures r["cpu"].Parsed? && r["memory"].Parsed? && r["pods"].Parsed?
    ensures resourceCpu != "" ==> r["cpu"].text == resourceCpu
    ensures resourceMemory != "" ==> r["memory"].text == resourceMemory
    ensures maxPod != "" ==> r["pods"].text == maxPod
    ensures resourceCpu == "" ==> IsDigits(r["cpu"].text) && ParseDecimal(r["cpu"].text) == numCpu
    ensures resourceMemory == "" ==> IsDigits(r["memory"].text) && ParseDecimal(r["memory"].text) == DefaultMemory
    ensures maxPod == "" ==> r["pods"].text == DefaultMaxPods
  {
    var cpu := if resourceCpu == "" then NatToString(numCpu) else resourceCpu;
    var memory := if resourceMemory == "" then NatToString(DefaultMemory) else resourceMemory;
    var pods := if maxPod == "" then DefaultMaxPods else maxPod;
    ParseNatToString(numCpu);
    ParseNatToString(DefaultMemory);
    map["cpu" := Kube.Parsed(cpu), "memory" := Kube.Parsed(memory), "pods" := Kube.Parsed(pods)]
  }
}
