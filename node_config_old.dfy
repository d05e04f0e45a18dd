/** The older node description (pkg/providers/nodeconfig.go): the same
    shape with fixed capacity values, the address taken from a package-level
    IP, and differently worded condition messages. */
module NodeConfigOld {
  import opened Common
  import Kube
  import NodeConfig

  /** nodeDaemonEndpoints of the older file takes an `int32` already. */
  function OldNodeDaemonEndpoints(port: Int32): (r: Kube.NodeDaemonEndpoints)
    ensures r.kubeletPort == port
  {
    Kube.NodeDaemonEndpoints(port)
  }

  /** nodeAddresses with `common.MyIP` passed in as `myIp`. */
  function OldNodeAddresses(myIp: string): (r: seq<Kube.NodeAddress>)
    ensures |r| == 1 && r[0].addressType == "InternalIP" && r[0].address == myIp
  {
    [Kube.NodeAddress("InternalIP", myIp)]
  }

  function OldNodeConditions(now: int): (r: seq<Kube.NodeCondition>)
    ensures |r| == |NodeConfig.ConditionTypes| && forall i :: 0 <= i < |r| ==> r[i].conditionType == NodeConfig.ConditionTypes[i]
    ensures forall i :: 0 <= i < |r| ==> (r[i].status == Kube.ConditionTrue <==> r[i].conditionType == "Ready")
  {
    [ Kube.NodeCondition("Ready", Kube.ConditionTrue, now, now, "KubeletReady", "kubelet is ready."),
      Kube.NodeCondition("OutOfDisk", Kube.ConditionFalse, now, now, "KubeletHasSufficientDisk", "kubelet has sufficient disk space available"),
      Kube.NodeCondition("MemoryPressure", Kube.ConditionFalse, now, now, "KubeletHasSufficientMemory", "kubelet has sufficient memory available"),
      Kube.NodeCondition("DiskPressure", Kube.ConditionFalse, now, now, "KubeletHasNoDiskPressure", "kubelet has no disk pressure"),
      Kube.NodeCondition("NetworkUnavailable", Kube.ConditionFalse, now, now, "RouteCreated", "RouteController created a route") ]
  }

  /** The two condition lists agree in everything but the messages. */
  lemma ConditionsDifferOnlyInMessages(now: int)
    ensures var a, b := OldNodeConditions(now), NodeConfig.NodeConditions(now);
      |a| == |b| && forall i :: 0 <= i < |a| ==> a[i].(message := "") == b[i].(message := "")
  {
  }

  /** nodeCapacity of the older file: numeric CPU count and memory, and
      the parsed text "200" for pods; no input is read. */
  function OldNodeCapacity(numCpu: nat): (r: map<string, Kube.Quantity>)
    ensures r.Keys == {"cpu", "memory", "pods"}
    ensures r["cpu"] == Kube.Value(numCpu) && r["memory"] == Kube.Value(NodeConfig.DefaultMemory)
    ensures r["pods"] == Kube.Parsed(NodeConfig.DefaultMaxPods)
  {
    map["cpu" := Kube.Value(numCpu), "memory" := Kube.Value(NodeConfig.DefaultMemory), "pods" := Kube.Parsed(NodeConfig.DefaultMaxPods)]
  }

  /** With no configured resources, the newer capacity states the same
      amounts as the older one: its decimal texts read back as the older
      numbers, and the pod count is the same text. */
  lemma CapacityVersionsAgreeOnDefaults(numCpu: nat)
    ensures var a, b := NodeConfig.NodeCapacity("", "", "", numCpu), OldNodeCapacity(numCpu);
      && a.Keys == b.Keys
      && ParseDecimal(a["cpu"].text) == b["cpu"].amount
      && ParseDecimal(a["memory"].text) == b["memory"].amount
      && a["pods"] == b["pods"]
  {
  }
}
