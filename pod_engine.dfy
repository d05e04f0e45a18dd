/** The second copy of the reconciliation engine (pkg/pod/pod.go): the
    same createPod, deletePod, getPod, findPodByName and getPodStatus as
    mycri.go, as methods of the pod package's Provider.

    The pod package's own helpers (refreshNodeState, pullImage,
    createContainer, startContainer, stopPodSandbox, removePodSandbox,
    generateContainerConfig, createPodSpecFromCRI, createPodStatusFromCRI,
    notifyStatus) and its Provider struct are not part of this model; the
    counterparts of mycri.go, pkg/remote and pkg/providers/util.go stand in
    for them. `notified` collects the pods passed to notifyStatus. */
module PodEngine {
  import opened Common
  import opened Cri
  import Kube
  import RemoteSandbox
  import opened Manager
  import Projector
  import opened Reconcile
  import EngineLoops

  /** Some pair of walks over the record's container map renders it as `q`. */
  ghost predicate ProjectsAs(p: PodRecord, nodeName: string, q: Kube.Pod) {
    exists specOrder, statusOrder ::
      && Enumerates(specOrder, p.containers.Keys)
      && Enumerates(statusOrder, p.containers.Keys)
      && q == Projector.PodSpecFromCri(p, nodeName, specOrder, statusOrder)
  }

  /** Some walk over the record's container map renders its status as `s`. */
  ghost predicate ProjectsStatusAs(p: PodRecord, s: Kube.PodStatus) {
    exists order :: Enumerates(order, p.containers.Keys) && s == Projector.PodStatusFromCri(p, order)
  }

  /** A rendered pod names the record's sandbox and the node asked for. */
  lemma ProjectionKeepsIdentity(p: PodRecord, nodeName: string, q: Kube.Pod)
    requires ProjectsAs(p, nodeName, q)
    ensures q.meta.name == p.status.metadata.name && q.meta.namespace == p.status.metadata.namespace
    ensures q.meta.uid == p.status.metadata.uid && q.spec.nodeName == nodeName
    ensures |q.spec.containers| == |p.containers| && |q.status.containerStatuses| == |p.containers|
    ensures (q.status.phase == Kube.PodRunning) <==> p.status.state == SandboxReady
  {
    var specOrder, statusOrder :| && Enumerates(specOrder, p.containers.Keys)
                                  && Enumerates(statusOrder, p.containers.Keys)
                                  && q == Projector.PodSpecFromCri(p, nodeName, specOrder, statusOrder);
    EnumerationLength(specOrder, p.containers.Keys);
    EnumerationLength(statusOrder, p.containers.Keys);
    assert |p.containers.Keys| == |p.containers|;
  }

  class Provider {
    const rt: RuntimeClient
    const disk: Disk
    const podLogRoot: string
    const podVolRoot: string
    const nodeName: string
    var podStatus: map<string, PodRecord>
    var notified: seq<Kube.Pod>

    constructor (rt: RuntimeClient, disk: Disk, podLogRoot: string, podVolRoot: string, nodeName: string)
      ensures this.rt == rt && this.disk == disk && this.nodeName == nodeName
      ensures this.podLogRoot == podLogRoot && this.podVolRoot == podVolRoot
      ensures podStatus == map[] && notified == []
    {
      this.rt := rt;
      this.disk := disk;
      this.podLogRoot := podLogRoot;
      this.podVolRoot := podVolRoot;
      this.nodeName := nodeName;
      podStatus := map[];
      notified := [];
    }

    /** The cache is replaced by the refresh only when every request of it
        succeeded. */
    twostate predicate CacheRefreshed()
      reads this, rt
    {
      var r := Refresh(rt.view);
      podStatus == (if r.err.None? then r.value else old(podStatus))
    }

    /** The refresh contract: the cache as above, and the requests of the
        refresh are all that is logged. */
    twostate predicate Refreshed()
      reads this, rt
    {
      CacheRefreshed() && rt.log == old(rt.log) + Refresh(rt.view).calls
    }

    /** refreshNodeState, with the body of mycri.go's: all or nothing. */
    method RefreshNodeState() returns (err: Option<Error>)
      modifies this`podStatus, rt`log
      ensures Refreshed() && err == Refresh(rt.view).err
    {
      var listed := RemoteSandbox.GetPodSandboxes(rt.view);
      rt.log := rt.log + listed.calls;
      if listed.err.Some? {
        return listed.err;
      }
      var newStatus;
      newStatus, err := EngineLoops.CollectSandboxRecords(rt, listed.value);
      if err.None? {
        podStatus := newStatus;
      }
    }

    /** What createPod does, as promised by CreateAfterRefresh: a failed
        refresh is returned before any directory or sandbox request, a new
        pod gets its log and volume directories before RunPodSandbox, and
        a pod found by name reuses that record's metadata UID as the
        sandbox id. */
    twostate predicate CreateEffect(pod: Kube.Pod, new err: Option<Error>, new existing: Option<PodRecord>)
      reads this, rt, disk
    {
      var r := Refresh(rt.view);
      && CacheRefreshed()
      && (r.err.Some? ==> err == r.err && rt.log == old(rt.log) + r.calls && disk.log == old(disk.log))
      && (r.err.None? ==>
            var out := CreateAfterRefresh(rt.view, disk.failing, pod, existing, podLogRoot, podVolRoot);
            && FoundBy(podStatus, pod.meta.namespace, pod.meta.name, existing)
            && err == out.err
            && rt.log == old(rt.log) + r.calls + out.calls
            && disk.log == old(disk.log) + out.diskOps)
    }

    /** createPod. */
    method CreatePod(pod: Kube.Pod) returns (err: Option<Error>, ghost existing: Option<PodRecord>)
      modifies this`podStatus, rt`log, disk`log
      ensures CreateEffect(pod, err, existing)
    {
      existing := None;
      var logPath := JoinPath(podLogRoot, pod.meta.uid);
      var volPath := JoinPath(podVolRoot, pod.meta.uid);
      err := RefreshNodeState();
      if err.Some? {
        return;
      }
      ghost var log1 := rt.log;
      var pConfig := RemoteSandbox.GeneratePodSandboxConfig(pod, logPath, 0).0;
      var found := EngineLoops.FindPodByName(podStatus, pod.meta.namespace, pod.meta.name);
      existing := found;
      var pId: string;
      ghost var sent: seq<Call> := [];
      if found.None? {
        err := disk.MkdirAllDir(logPath);
        if err.Some? {
          return;
        }
        err := disk.MkdirAllDir(volPath);
        if err.Some? {
          return;
        }
        var run := RemoteSandbox.RunPodSandbox(rt.view, pConfig);
        rt.log := rt.log + run.calls;
        if run.err.Some? {
          return run.err, existing;
        }
        pId := run.value;
        sent := run.calls;
      } else {
        pId := found.value.status.metadata.uid;
      }
      err := EngineLoops.CreateContainers(rt, pod, pId, pConfig, volPath);
      AppendAssociates(log1, sent, ContainerLoop(rt.view, pod, pod.spec.containers, pId, pConfig, volPath).calls);
    }

    /** What deletePod does, as promised by DeleteAfterRefresh. */
    twostate predicate DeleteEffect(pod: Kube.Pod, new err: Option<Error>)
      reads this, rt, disk
    {
      var r := Refresh(rt.view);
      && CacheRefreshed()
      && (r.err.Some? ==> err == r.err && rt.log == old(rt.log) + r.calls && disk.log == old(disk.log) && notified == old(notified))
      && (r.err.None? ==>
            var out := DeleteAfterRefresh(rt.view, r.value, pod, podVolRoot);
            && err == out.err
            && rt.log == old(rt.log) + r.calls + out.calls
            && disk.log == old(disk.log) + out.diskOps
            && notified == old(notified) + (if out.notify then [pod] else []))
    }

    /** deletePod: an uncached UID is NotFound; stop and volume-removal
        failures are only logged; the result is removePodSandbox's. */
    method DeletePod(pod: Kube.Pod) returns (err: Option<Error>)
      modifies this`podStatus, this`notified, rt`log, disk`log
      ensures DeleteEffect(pod, err)
    {
      err := RefreshNodeState();
      if err.Some? {
        return;
      }
      ghost var out := DeleteAfterRefresh(rt.view, podStatus, pod, podVolRoot);
      if pod.meta.uid !in podStatus {
        return Some(NotFound);
      }
      ghost var log1 := rt.log;
      var ps := podStatus[pod.meta.uid];
      var stop := RemoteSandbox.StopPodSandbox(rt.view, ps.status.id);
      rt.log := rt.log + stop.calls;
      var volPath := JoinPath(podVolRoot, pod.meta.uid);
      var removeErr := disk.RemoveAllDir(volPath);
      var remove := RemoteSandbox.RemovePodSandbox(rt.view, ps.status.id);
      rt.log := rt.log + remove.calls;
      AppendAssociates(log1, stop.calls, remove.calls);
      assert out.calls == stop.calls + remove.calls && out.err == remove.err;
      notified := notified + [pod];
      err := remove.err;
    }

    /** getPod: NotFound when no cached record has the name and namespace,
        otherwise the record rendered for this node. */
    method GetPod(namespace: string, name: string) returns (pod: Option<Kube.Pod>, err: Option<Error>, ghost found: Option<PodRecord>)
      modifies this`podStatus, rt`log
      ensures Refreshed()
      ensures Refresh(rt.view).err.Some? ==> err == Refresh(rt.view).err && pod.None?
      ensures Refresh(rt.view).err.None? ==> FoundBy(podStatus, namespace, name, found)
      ensures Refresh(rt.view).err.None? && found.None? ==> err == Some(NotFound) && pod.None?
      ensures Refresh(rt.view).err.None? && found.Some? ==>
        err.None? && pod.Some? && ProjectsAs(found.value, nodeName, pod.value)
    {
      found := None;
      pod := None;
      err := RefreshNodeState();
      if err.Some? {
        return;
      }
      var f := EngineLoops.FindPodByName(podStatus, namespace, name);
      found := f;
      if f.None? {
        err := Some(NotFound);
        return;
      }
      var p := f.value;
      var specOrder := MapOrder(p.containers);
      var statusOrder := MapOrder(p.containers);
      pod := Some(Projector.PodSpecFromCri(p, nodeName, specOrder, statusOrder));
    }

    /** findPodByName, over this provider's cache. */
    method FindPodByName(namespace: string, name: string) returns (found: Option<PodRecord>)
      ensures FoundBy(podStatus, namespace, name, found)
    {
      found := EngineLoops.FindPodByName(podStatus, namespace, name);
    }

    /** getPodStatus: NotFound as getPod, otherwise the record's status. */
    method GetPodStatus(namespace: string, name: string) returns (status: Option<Kube.PodStatus>, err: Option<Error>, ghost found: Option<PodRecord>)
      modifies this`podStatus, rt`log
      ensures Refreshed()
      ensures Refresh(rt.view).err.Some? ==> err == Refresh(rt.view).err && status.None?
      ensures Refresh(rt.view).err.None? ==> FoundBy(podStatus, namespace, name, found)
      ensures Refresh(rt.view).err.None? && found.None? ==> err == Some(NotFound) && status.None?
      ensures Refresh(rt.view).err.None? && found.Some? ==>
        err.None? && status.Some? && ProjectsStatusAs(found.value, status.value)
    {
      found := None;
      status := None;
      err := RefreshNodeState();
      if err.Some? {
        return;
      }
      var f := EngineLoops.FindPodByName(podStatus, namespace, name);
      found := f;
      if f.None? {
        err := Some(NotFound);
        return;
      }
      var p := f.value;
      var order := MapOrder(p.containers);
      status := Some(Projector.PodStatusFromCri(p, order));
    }
  }
}
