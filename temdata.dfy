/** The in-memory pod list of pkg/providers/temdata.go: pods scheduled to
    this node are appended to a package-level list, and a status pass marks
    them all Running. The node name and the clock are parameters. */
module TemData {
  import opened Common
  import Kube

  /** The status appended for one declared container: Running since `now`
      and ready. */
  function RunningStatusFor(c: Kube.Container, now: int): (s: Kube.ContainerStatus)
    ensures s.name == c.name && s.image == c.image && s.imageId == "" && s.containerId == ""
    ensures s.ready && s.state == Kube.Running(now)
  {
    Kube.ContainerStatus(c.name, c.image, "", "", true, Kube.Running(now))
  }

  function RunningStatuses(cs: seq<Kube.Container>, now: int): (r: seq<Kube.ContainerStatus>)
    ensures |r| == |cs| && forall i :: 0 <= i < |cs| ==> r[i] == RunningStatusFor(cs[i], now)
  {
    seq(|cs|, i requires 0 <= i < |cs| => RunningStatusFor(cs[i], now))
  }

  /** One pod after the status pass. */
  function WithRunningPhase(p: Kube.Pod, now: int): (q: Kube.Pod)
    ensures q.meta == p.meta && q.spec == p.spec && q.kind == p.kind && q.apiVersion == p.apiVersion
    ensures q.status.phase == Kube.PodRunning
    ensures q.status.(phase := p.status.phase, containerStatuses := p.status.containerStatuses) == p.status
    ensures |p.status.containerStatuses| >= |p.spec.containers| ==> q.status.containerStatuses == p.status.containerStatuses
    ensures |p.status.containerStatuses| < |p.spec.containers| ==>
      q.status.containerStatuses == p.status.containerStatuses + RunningStatuses(p.spec.containers, now)
    ensures |q.status.containerStatuses| >= |q.spec.containers|
  {
    var statuses := p.status.containerStatuses;
    var statuses' := if |statuses| < |p.spec.containers| then statuses + RunningStatuses(p.spec.containers, now) else statuses;
    p.(status := p.status.(phase := Kube.PodRunning, containerStatuses := statuses'))
  }

  function WithRunningStatus(pods: seq<Kube.Pod>, now: int): (r: seq<Kube.Pod>)
    ensures |r| == |pods| && forall i :: 0 <= i < |pods| ==> r[i] == WithRunningPhase(pods[i], now)
  {
    seq(|pods|, i requires 0 <= i < |pods| => WithRunningPhase(pods[i], now))
  }

  /** A second pass changes nothing: after the first, every pod is Running
      and has at least as many statuses as containers. */
  lemma StatusPassIdempotent(pods: seq<Kube.Pod>, t1: int, t2: int)
    ensures WithRunningStatus(WithRunningStatus(pods, t1), t2) == WithRunningStatus(pods, t1)
  {
    var once := WithRunningStatus(pods, t1);
    var twice := WithRunningStatus(once, t2);
    forall i | 0 <= i < |pods| ensures twice[i] == once[i] {
      assert once[i].status.phase == Kube.PodRunning;
    }
  }

  class TempPods {
    var pods: seq<Kube.Pod>

    /** The list starts empty (the package's init). */
    constructor ()
      ensures pods == []
    {
      pods := [];
    }

    /** createPod: append the pod iff it is scheduled to `nodeName`. */
    method CreatePod(pod: Kube.Pod, nodeName: string)
      modifies this
      ensures pod.spec.nodeName == nodeName ==> pods == old(pods) + [pod]
      ensures pod.spec.nodeName != nodeName ==> pods == old(pods)
    {
      if pod.spec.nodeName == nodeName {
        pods := pods + [pod];
      }
    }

    /** setPodsStatus: every pod becomes Running; a pod with fewer statuses
        than containers gets one Running, ready status per declared
        container appended (for all of them, not only the missing ones). */
    method SetPodsStatus(now: int)
      modifies this
      ensures pods == WithRunningStatus(old(pods), now)
    {
      ghost var before := pods;
      for i := 0 to |pods|
        invariant |pods| == |before|
        invariant forall j :: 0 <= j < i ==> pods[j] == WithRunningPhase(before[j], now)
        invariant forall j :: i <= j < |pods| ==> pods[j] == before[j]
      {
        var p := pods[i];
        p := p.(status := p.status.(phase := Kube.PodRunning));
        if |p.status.containerStatuses| < |p.spec.containers| {
          var statuses := p.status.containerStatuses;
          ghost var start := statuses;
          for k := 0 to |p.spec.containers|
            invariant statuses == start + RunningStatuses(p.spec.containers[..k], now)
          {
            assert p.spec.containers[..k + 1] == p.spec.containers[..k] + [p.spec.containers[k]];
            statuses := statuses + [RunningStatusFor(p.spec.containers[k], now)];
          }
          assert p.spec.containers[..|p.spec.containers|] == p.spec.containers;
          p := p.(status := p.status.(containerStatuses := statuses));
        }
        pods := pods[i := p];
      }
      assert pods == WithRunningStatus(before, now);
    }
  }
}
