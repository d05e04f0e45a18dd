/** The status projector (pkg/providers/util.go): cached runtime records
    rendered as Kubernetes pods, pod statuses and container statuses. This is
    the variant with nil guards on the network and image records. */
module Projector {
  import opened Common
  import Cri
  import Kube
  import RemoteSandbox
  import opened Manager

  function HandleNetworkIp(p: PodRecord): (ip: string)
    ensures p.status.network.None? ==> ip == ""
    ensures p.status.network.Some? ==> ip == p.status.network.value.ip
  {
    if p.status.network.None? then "" else p.status.network.value.ip
  }

  function HandleImage(c: Cri.ContainerStatus): (image: string)
    ensures c.image.None? ==> image == ""
    ensures c.image.Some? ==> image == c.image.value.image
  {
    if c.image.None? then "" else c.image.value.image
  }

  /** The guard is on the image record, not on the reference itself. */
  function HandleImageRef(c: Cri.ContainerStatus): (ref: string)
    ensures c.image.None? ==> ref == ""
    ensures c.image.Some? ==> ref == c.imageRef
  {
    if c.image.None? then "" else c.imageRef
  }

  /** The container lifecycle map, total on the four runtime states. */
  function ContainerStateFromCri(state: Cri.ContainerState, status: Cri.ContainerStatus): (r: Kube.ContainerState)
    ensures r.Waiting? <==> state == Cri.ContainerUnknown || state == Cri.ContainerCreated
    ensures r.Running? <==> state == Cri.ContainerRunning
    ensures r.Terminated? <==> state == Cri.ContainerExited
    ensures r.Waiting? ==> r.reason == status.reason && r.message == status.message
    ensures r.Running? ==> r.startedAt == status.startedAt
    ensures r.Terminated? ==> && r.exitCode == status.exitCode
                              && r.reason == status.reason && r.message == status.message
                              && r.startedAt == status.startedAt && r.finishedAt == status.finishedAt
  {
    match state
    case ContainerUnknown | ContainerCreated => Kube.Waiting(status.reason, status.message)
    case ContainerRunning => Kube.Running(status.startedAt)
    case ContainerExited =>
      Kube.Terminated(status.exitCode, status.reason, status.message, status.startedAt, status.finishedAt)
  }

  /** The container declaration reported for one cached container. */
  function ContainerOf(c: Cri.ContainerStatus): (r: Kube.Container)
    ensures r.name == c.metadata.name && r.image == HandleImage(c)
    ensures r.command == [] && r.args == [] && r.workingDir == ""
    ensures !r.stdin && !r.stdinOnce && !r.tty
  {
    Kube.Container(c.metadata.name, HandleImage(c), [], [], "", false, false, false)
  }

  /** The container status reported for one cached container. */
  function ContainerStatusOf(c: Cri.ContainerStatus): (s: Kube.ContainerStatus)
    ensures s.name == c.metadata.name && s.containerId == c.id
    ensures s.image == HandleImage(c) && s.imageId == HandleImageRef(c)
    ensures s.ready <==> c.state == Cri.ContainerRunning
    ensures s.state == ContainerStateFromCri(c.state, c)
  {
    Kube.ContainerStatus(
      c.metadata.name, HandleImage(c), HandleImageRef(c), c.id,
      c.state == Cri.ContainerRunning, ContainerStateFromCri(c.state, c))
  }

  /** A reported container is ready exactly when its reported state is
      Running. */
  lemma ReadyIffReportedRunning(c: Cri.ContainerStatus)
    ensures ContainerStatusOf(c).ready <==> ContainerStatusOf(c).state.Running?
  {
  }

  /** createContainerSpecsFromCRI for the map iteration order `order`: one
      declaration and one status per cached container, in that order. */
  function ContainerSpecs(m: map<string, Cri.ContainerStatus>, order: seq<string>): (r: (seq<Kube.Container>, seq<Kube.ContainerStatus>))
    requires Enumerates(order, m.Keys)
    ensures |r.0| == |order| == |m| && |r.1| == |m|
    ensures forall i :: 0 <= i < |order| ==> r.0[i] == ContainerOf(m[order[i]]) && r.1[i] == ContainerStatusOf(m[order[i]])
  {
    EnumerationLength(order, m.Keys);
    (seq(|order|, i requires 0 <= i < |order| => ContainerOf(m[order[i]])),
     seq(|order|, i requires 0 <= i < |order| => ContainerStatusOf(m[order[i]])))
  }

  /** When every cached container is keyed by its own name (as a refresh
      builds them), the reported names are exactly the cache keys, each
      once, and declaration i and status i name the same container. */
  lemma ContainerSpecsNameEachEntryOnce(m: map<string, Cri.ContainerStatus>, order: seq<string>)
    requires Enumerates(order, m.Keys)
    requires forall k :: k in m ==> m[k].metadata.name == k
    ensures var r := ContainerSpecs(m, order);
      && (forall i :: 0 <= i < |r.1| ==> r.0[i].name == r.1[i].name && r.1[i].name in m)
      && (forall k :: k in m ==> exists i :: 0 <= i < |r.1| && r.1[i].name == k)
      && (forall i, j :: 0 <= i < j < |r.1| ==> r.1[i].name != r.1[j].name)
  {
    var r := ContainerSpecs(m, order);
    forall k | k in m ensures exists i :: 0 <= i < |r.1| && r.1[i].name == k {
      var i :| 0 <= i < |order| && order[i] == k;
      assert r.1[i].name == k;
    }
  }

  /** createContainerSpecsFromCRI as the loop the source runs. */
  method CreateContainerSpecsFromCri(m: map<string, Cri.ContainerStatus>, order: seq<string>)
    returns (containers: seq<Kube.Container>, statuses: seq<Kube.ContainerStatus>)
    requires Enumerates(order, m.Keys)
    ensures (containers, statuses) == ContainerSpecs(m, order)
  {
    containers, statuses := [], [];
    for i := 0 to |order|
      invariant |containers| == i && |statuses| == i
      invariant forall j :: 0 <= j < i ==> containers[j] == ContainerOf(m[order[j]])
      invariant forall j :: 0 <= j < i ==> statuses[j] == ContainerStatusOf(m[order[j]])
    {
      var c := m[order[i]];
      containers := containers + [ContainerOf(c)];
      statuses := statuses + [ContainerStatusOf(c)];
    }
    var r := ContainerSpecs(m, order);
    assert containers == r.0 && statuses == r.1;
  }

  /** createPodStatusFromCRI. The phase is Running exactly when the sandbox
      is ready and Pending otherwise; Succeeded and Failed are never
      produced. */
  function PodStatusFromCri(p: PodRecord, order: seq<string>): (r: Kube.PodStatus)
    requires Enumerates(order, p.containers.Keys)
    ensures r.phase == Kube.PodRunning <==> p.status.state == Cri.SandboxReady
    ensures r.phase == Kube.PodRunning || r.phase == Kube.PodPending
    ensures r.podIp == HandleNetworkIp(p)
    ensures r.startTime == Some(p.status.createdAt)
    ensures r.message == "" && r.reason == "" && r.hostIp == ""
    ensures r.containerStatuses == ContainerSpecs(p.containers, order).1
  {
    var statuses := ContainerSpecs(p.containers, order).1;
    var phase := if p.status.state == Cri.SandboxReady then Kube.PodRunning else Kube.PodPending;
    Kube.PodStatus(phase, "", "", "", HandleNetworkIp(p), Some(p.status.createdAt), statuses)
  }

  /** createPodSpecFromCRI. The declarations and the statuses come from two
      separate walks over the container map, so they may list the
      containers in different orders. */
  function PodSpecFromCri(p: PodRecord, nodeName: string, specOrder: seq<string>, statusOrder: seq<string>): (r: Kube.Pod)
    requires Enumerates(specOrder, p.containers.Keys)
    requires Enumerates(statusOrder, p.containers.Keys)
    ensures r.kind == "Pod" && r.apiVersion == "v1"
    ensures r.meta.name == p.status.metadata.name
    ensures r.meta.namespace == p.status.metadata.namespace
    ensures r.meta.uid == p.status.metadata.uid
    ensures r.meta.creationTimestamp == p.status.createdAt
    ensures r.spec.nodeName == nodeName && r.spec.volumes == []
    ensures r.spec.containers == ContainerSpecs(p.containers, specOrder).0
    ensures r.status == PodStatusFromCri(p, statusOrder)
  {
    Kube.Pod(
      "Pod", "v1",
      Kube.ObjectMeta(p.status.metadata.name, p.status.metadata.namespace, p.status.metadata.uid, None, p.status.createdAt),
      Kube.PodSpec(nodeName, [], ContainerSpecs(p.containers, specOrder).0),
      PodStatusFromCri(p, statusOrder))
  }

  /** Round trip through the runtime: a sandbox created from a pod's
      request and projected back reports the pod's name, namespace and
      UID. */
  lemma SandboxIdentityRoundTrip(pod: Kube.Pod, logDir: string, p: PodRecord, nodeName: string, o1: seq<string>, o2: seq<string>)
    requires p.status.metadata == RemoteSandbox.GeneratePodSandboxConfig(pod, logDir, 0).0.metadata
    requires Enumerates(o1, p.containers.Keys) && Enumerates(o2, p.containers.Keys)
    ensures var q := PodSpecFromCri(p, nodeName, o1, o2);
      q.meta.name == pod.meta.name && q.meta.namespace == pod.meta.namespace && q.meta.uid == pod.meta.uid
  {
  }
}
