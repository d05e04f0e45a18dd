/** The loops of the reconciliation engine, which pkg/providers/mycri.go
    and pkg/pod/pod.go write identically: the two loops of
    refreshNodeState, the lookup by name and the container loop of
    createPod. Each is proved against its function in module Reconcile;
    both engines call them with their own runtime client and cache. */
module EngineLoops {
  import opened Common
  import opened Cri
  import Kube
  import RemoteSandbox
  import RemoteContainer
  import opened Manager
  import opened Reconcile

  /** The inner loop of refreshNodeState: one status request per listed
      container. */
  method CollectContainerStatuses(rt: RuntimeClient, cs: seq<Container>) returns (css: map<string, ContainerStatus>, err: Option<Error>)
    modifies rt`log
    ensures var f := FetchContainers(rt.view, cs);
      err == f.err && (err.None? ==> css == f.value) && rt.log == old(rt.log) + f.calls
  {
    var view := rt.view;
    css := map[];
    var k := 0;
    while k < |cs|
      invariant 0 <= k <= |cs|
      invariant FetchContainers(view, cs[..k]) == Reply(css, None, FetchContainers(view, cs[..k]).calls)
      invariant rt.log == old(rt.log) + FetchContainers(view, cs[..k]).calls
    {
      assert cs[..k + 1][..k] == cs[..k];
      var cstatus := RemoteContainer.GetContainerCriStatus(view, cs[k].id);
      rt.log := rt.log + cstatus.calls;
      if cstatus.err.Some? {
        FetchContainersErrorSticks(view, cs, k + 1);
        return css, cstatus.err;
      }
      css := css[cstatus.value.value.metadata.name := cstatus.value.value];
      k := k + 1;
    }
    assert cs[..k] == cs;
    err := None;
  }

  /** The body of refreshNodeState's outer loop for one sandbox. */
  method FetchSandboxRecord(rt: RuntimeClient, p: PodSandbox) returns (rec: PodRecord, err: Option<Error>)
    modifies rt`log
    ensures var f := FetchSandbox(rt.view, p);
      err == f.err && (err.None? ==> rec == f.value) && rt.log == old(rt.log) + f.calls
  {
    var view := rt.view;
    rec := PodRecord(p.id, map[], PodSandboxStatus(p.id, p.metadata, p.state, 0, None));
    var st := RemoteSandbox.GetPodSandboxStatus(view, p.id);
    rt.log := rt.log + st.calls;
    if st.err.Some? {
      return rec, st.err;
    }
    var containers := RemoteContainer.GetContainersForSandbox(view, p.id);
    rt.log := rt.log + containers.calls;
    if containers.err.Some? {
      return rec, containers.err;
    }
    var css;
    css, err := CollectContainerStatuses(rt, containers.value);
    if err.None? {
      rec := PodRecord(p.id, css, st.value.value);
    }
  }

  /** The outer loop of refreshNodeState: one record per listed sandbox,
      built in a fresh map. */
  method CollectSandboxRecords(rt: RuntimeClient, allPods: seq<PodSandbox>) returns (newStatus: map<string, PodRecord>, err: Option<Error>)
    modifies rt`log
    ensures var f := FetchSandboxes(rt.view, allPods);
      err == f.err && (err.None? ==> newStatus == f.value) && rt.log == old(rt.log) + f.calls
  {
    var view := rt.view;
    newStatus := map[];
    var i := 0;
    while i < |allPods|
      invariant 0 <= i <= |allPods|
      invariant FetchSandboxes(view, allPods[..i]) == Reply(newStatus, None, FetchSandboxes(view, allPods[..i]).calls)
      invariant rt.log == old(rt.log) + FetchSandboxes(view, allPods[..i]).calls
    {
      FetchSandboxesStep(view, allPods, i);
      AppendAssociates(old(rt.log), FetchSandboxes(view, allPods[..i]).calls, FetchSandbox(view, allPods[i]).calls);
      var rec;
      rec, err := FetchSandboxRecord(rt, allPods[i]);
      if err.Some? {
        return;
      }
      newStatus := newStatus[rec.status.metadata.uid := rec];
      i := i + 1;
    }
    assert allPods[..i] == allPods;
    err := None;
  }

  /** findPodByName: the first record of the map walk with that namespace
      and name, or None when there is none. */
  method FindPodByName(cache: map<string, PodRecord>, namespace: string, name: string) returns (found: Option<PodRecord>)
    ensures FoundBy(cache, namespace, name, found)
  {
    found := None;
    var rest := cache.Keys;
    while rest != {}
      invariant rest <= cache.Keys
      invariant forall k :: k in cache && k !in rest ==> !Matches(cache[k], namespace, name)
      decreases rest
    {
      var k :| k in rest;
      if Matches(cache[k], namespace, name) {
        found := Some(cache[k]);
        assert cache[k] in cache.Values;
        return;
      }
      rest := rest - {k};
    }
  }

  /** The container loop of createPod. The StartContainer result goes to a
      variable of the loop body and is never looked at. */
  method CreateContainers(rt: RuntimeClient, pod: Kube.Pod, pId: string, pConfig: PodSandboxConfig, volPath: string) returns (err: Option<Error>)
    modifies rt`log
    ensures var l := ContainerLoop(rt.view, pod, pod.spec.containers, pId, pConfig, volPath);
      err == l.err && rt.log == old(rt.log) + l.calls
  {
    var view := rt.view;
    var cs := pod.spec.containers;
    var i := 0;
    while i < |cs|
      invariant 0 <= i <= |cs|
      invariant ContainerLoop(view, pod, cs[..i], pId, pConfig, volPath).err.None?
      invariant rt.log == old(rt.log) + ContainerLoop(view, pod, cs[..i], pId, pConfig, volPath).calls
    {
      ContainerLoopStep(view, pod, cs, pId, pConfig, volPath, i);
      ghost var log0 := rt.log;
      var pull := PullImage(view, cs[i].image);
      rt.log := rt.log + pull.calls;
      if pull.err.Some? {
        AppendAssociates(old(rt.log), ContainerLoop(view, pod, cs[..i], pId, pConfig, volPath).calls, pull.calls);
        return pull.err;
      }
      var cConfig := RemoteContainer.GenerateContainerConfig(cs[i], pod, pull.value, volPath, 0).0;
      var create := RemoteContainer.CreateContainer(view, cConfig, pConfig, pId);
      rt.log := rt.log + create.calls;
      AppendAssociates(log0, pull.calls, create.calls);
      if create.err.Some? {
        AppendAssociates(old(rt.log), ContainerLoop(view, pod, cs[..i], pId, pConfig, volPath).calls, pull.calls + create.calls);
        return create.err;
      }
      var start := RemoteContainer.StartContainer(view, create.value);
      rt.log := rt.log + start.calls;
      AppendAssociates(log0, pull.calls + create.calls, start.calls);
      AppendAssociates(old(rt.log), ContainerLoop(view, pod, cs[..i], pId, pConfig, volPath).calls, pull.calls + create.calls + start.calls);
      var shadowedErr := start.err;
      i := i + 1;
    }
    assert cs[..i] == cs;
    err := None;
  }
}
