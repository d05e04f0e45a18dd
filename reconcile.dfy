/** What the reconciliation engine of pkg/providers/mycri.go does, as
    functions of the runtime's answers: the cache refresh, the lookup by
    name, the container loop of pod creation and the whole creation after a
    refresh. The engine's methods (module Providers, and the second copy in
    module PodEngine) are proved against these. */
module Reconcile {
  import opened Common
  import opened Cri
  import Kube
  import RemoteSandbox
  import RemoteContainer
  import opened Manager

  // ---------------------------------------------------------------------
  // refreshNodeState (pkg/providers/mycri.go:326-364).

  /** The inner loop: the status of each listed container, keyed by its
      metadata name, stopping at the first failed status call. */
  function FetchContainers(view: RuntimeView, cs: seq<Container>): (r: Reply<map<string, ContainerStatus>>)
    ensures r.err.Some? ==> r.err == Some(InvalidInput) || r.err == Some(RuntimeFailure)
    ensures forall call :: call in r.calls ==> call.IsQuery()
    ensures r.err.None? ==> forall n :: n in r.value ==> r.value[n].metadata.name == n
    decreases |cs|
  {
    if cs == [] then Reply(map[], None, [])
    else
      var prev := FetchContainers(view, cs[..|cs| - 1]);
      if prev.err.Some? then prev
      else
        var s := RemoteContainer.GetContainerCriStatus(view, cs[|cs| - 1].id);
        if s.err.Some? then Reply(prev.value, s.err, prev.calls + s.calls)
        else Reply(prev.value[s.value.value.metadata.name := s.value.value], None, prev.calls + s.calls)
  }

  lemma {:induction false} FetchContainersErrorSticks(view: RuntimeView, cs: seq<Container>, i: nat)
    requires i <= |cs| && FetchContainers(view, cs[..i]).err.Some?
    ensures FetchContainers(view, cs) == FetchContainers(view, cs[..i])
    decreases |cs| - i
  {
    if i < |cs| {
      var front := cs[..|cs| - 1];
      assert front[..i] == cs[..i];
      FetchContainersErrorSticks(view, front, i);
    } else {
      assert cs[..i] == cs;
    }
  }

  /** A successful inner loop holds the runtime's status of every listed
      container, and nothing but such statuses. */
  lemma {:induction false} FetchContainersCovers(view: RuntimeView, cs: seq<Container>)
    requires FetchContainers(view, cs).err.None?
    ensures var r := FetchContainers(view, cs);
      && (forall n :: n in r.value ==> exists i :: 0 <= i < |cs| && cs[i].id in view.containerStatus && r.value[n] == view.containerStatus[cs[i].id])
      && (forall i :: 0 <= i < |cs| ==> cs[i].id in view.containerStatus && view.containerStatus[cs[i].id].metadata.name in r.value)
    decreases |cs|
  {
    if cs != [] {
      var front := cs[..|cs| - 1];
      FetchContainersCovers(view, front);
      var r := FetchContainers(view, cs);
      var last := cs[|cs| - 1];
      forall n | n in r.value
        ensures exists i :: 0 <= i < |cs| && cs[i].id in view.containerStatus && r.value[n] == view.containerStatus[cs[i].id]
      {
        if n != view.containerStatus[last.id].metadata.name {
          var i :| 0 <= i < |front| && front[i].id in view.containerStatus && FetchContainers(view, front).value[n] == view.containerStatus[front[i].id];
          assert cs[i] == front[i];
        } else {
          assert r.value[n] == view.containerStatus[cs[|cs| - 1].id];
        }
      }
      forall i | 0 <= i < |cs| ensures cs[i].id in view.containerStatus && view.containerStatus[cs[i].id].metadata.name in r.value {
        if i < |front| {
          assert cs[i] == front[i];
        }
      }
    }
  }

  /** One sandbox of the outer loop: its status, its containers and
      their statuses, stopping at the first failed call. */
  function FetchSandbox(view: RuntimeView, p: PodSandbox): (r: Reply<PodRecord>)
    ensures r.err.Some? ==> r.err == Some(InvalidInput) || r.err == Some(RuntimeFailure)
    ensures forall call :: call in r.calls ==> call.IsQuery()
    ensures r.err.None? ==> r.value.id == p.id && RecordFor(view, r.value, r.value.status.metadata.uid)
  {
    var st := RemoteSandbox.GetPodSandboxStatus(view, p.id);
    var none := PodRecord(p.id, map[], PodSandboxStatus(p.id, p.metadata, p.state, 0, None));
    if st.err.Some? then Reply(none, st.err, st.calls)
    else
      var listed := RemoteContainer.GetContainersForSandbox(view, p.id);
      if listed.err.Some? then Reply(none, listed.err, st.calls + listed.calls)
      else
        var css := FetchContainers(view, listed.value);
        if css.err.Some? then Reply(none, css.err, st.calls + listed.calls + css.calls)
        else Reply(PodRecord(p.id, css.value, st.value.value), None, st.calls + listed.calls + css.calls)
  }

  /** The outer loop: one record per listed sandbox, keyed by the metadata
      UID its status reports, stopping at the first failed sandbox. */
  function FetchSandboxes(view: RuntimeView, ps: seq<PodSandbox>): (r: Reply<map<string, PodRecord>>)
    ensures r.err.Some? ==> r.err == Some(InvalidInput) || r.err == Some(RuntimeFailure)
    ensures forall call :: call in r.calls ==> call.IsQuery()
    decreases |ps|, 1
  {
    if ps == [] then Reply(map[], None, [])
    else FetchSandboxesThrough(view, ps)
  }

  function FetchSandboxesThrough(view: RuntimeView, ps: seq<PodSandbox>): (r: Reply<map<string, PodRecord>>)
    requires ps != []
    decreases |ps|, 0
  {
      var prev := FetchSandboxes(view, ps[..|ps| - 1]);
      if prev.err.Some? then prev
      else
        var one := FetchSandbox(view, ps[|ps| - 1]);
        if one.err.Some? then Reply(prev.value, one.err, prev.calls + one.calls)
        else Reply(prev.value[one.value.status.metadata.uid := one.value], None, prev.calls + one.calls)
  }

  /** A refreshed record under key `k`: its status is the runtime's status
      of its sandbox id, whose metadata UID is the key, and its containers
      are keyed by their metadata names. */
  ghost predicate RecordFor(view: RuntimeView, rec: PodRecord, k: string) {
    && rec.id in view.sandboxStatus
    && rec.status == view.sandboxStatus[rec.id]
    && rec.status.metadata.uid == k
    && (forall n :: n in rec.containers ==> rec.containers[n].metadata.name == n)
  }

  lemma {:induction false} FetchSandboxesErrorSticks(view: RuntimeView, ps: seq<PodSandbox>, i: nat)
    requires i <= |ps| && FetchSandboxes(view, ps[..i]).err.Some?
    ensures FetchSandboxes(view, ps) == FetchSandboxes(view, ps[..i])
    decreases |ps| - i
  {
    if i < |ps| {
      var front := ps[..|ps| - 1];
      assert front[..i] == ps[..i];
      FetchSandboxesErrorSticks(view, front, i);
    } else {
      assert ps[..i] == ps;
    }
  }

  /** The outer loop after `i` sandboxes have been fetched: one more
      fetched sandbox extends the cache; a failed one ends the refresh with
      its error. */
  lemma FetchSandboxesStep(view: RuntimeView, ps: seq<PodSandbox>, i: nat)
    requires i < |ps| && FetchSandboxes(view, ps[..i]).err.None?
    ensures var prev, one := FetchSandboxes(view, ps[..i]), FetchSandbox(view, ps[i]);
      && (one.err.None? ==>
            FetchSandboxes(view, ps[..i + 1]) == Reply(prev.value[one.value.status.metadata.uid := one.value], None, prev.calls + one.calls))
      && (one.err.Some? ==>
            FetchSandboxes(view, ps).err == one.err && FetchSandboxes(view, ps).calls == prev.calls + one.calls)
  {
    assert ps[..i + 1][..i] == ps[..i];
    if FetchSandbox(view, ps[i]).err.Some? {
      FetchSandboxesErrorSticks(view, ps, i + 1);
    }
  }

  /** The keys of a successful fetch are exactly the metadata UIDs of the
      fetched sandboxes, and each record is the runtime's record of one of
      them. */
  lemma {:induction false} FetchSandboxesKeys(view: RuntimeView, ps: seq<PodSandbox>)
    requires FetchSandboxes(view, ps).err.None?
    ensures var r := FetchSandboxes(view, ps);
      && (forall k :: k in r.value ==> RecordFor(view, r.value[k], k))
      && (forall k :: k in r.value ==> exists i :: 0 <= i < |ps| && ps[i].id == r.value[k].id)
      && (forall p :: p in ps ==> p.id in view.sandboxStatus && view.sandboxStatus[p.id].metadata.uid in r.value)
    decreases |ps|
  {
    if ps != [] {
      var front := ps[..|ps| - 1];
      FetchSandboxesKeys(view, front);
      var prev, one := FetchSandboxes(view, front), FetchSandbox(view, ps[|ps| - 1]);
      var r := FetchSandboxes(view, ps);
      assert one.err.None? && r.value == prev.value[one.value.status.metadata.uid := one.value];
      forall k | k in r.value ensures RecordFor(view, r.value[k], k) {
      }
      forall k | k in r.value ensures exists i :: 0 <= i < |ps| && ps[i].id == r.value[k].id {
        if k != one.value.status.metadata.uid {
          var i :| 0 <= i < |front| && front[i].id == prev.value[k].id;
          assert ps[i] == front[i];
        } else {
          assert ps[|ps| - 1].id == r.value[k].id;
        }
      }
      forall p | p in ps ensures p.id in view.sandboxStatus && view.sandboxStatus[p.id].metadata.uid in r.value {
        if p != ps[|ps| - 1] {
          var i :| 0 <= i < |ps| && ps[i] == p;
          assert front[i] == p;
        }
      }
    }
  }

  /** The whole refresh: list every sandbox, then fetch each one. The new
      cache is the value only when the error is None. */
  function Refresh(view: RuntimeView): (r: Reply<map<string, PodRecord>>)
    ensures r.err.Some? ==> r.err == Some(InvalidInput) || r.err == Some(RuntimeFailure)
    ensures forall call :: call in r.calls ==> call.IsQuery()
    ensures |r.calls| >= 1 && r.calls[0] == ListPodSandboxCall(RemoteSandbox.EmptySandboxFilter)
  {
    var listed := RemoteSandbox.GetPodSandboxes(view);
    if listed.err.Some? then Reply(map[], listed.err, listed.calls)
    else
      var fetched := FetchSandboxes(view, listed.value);
      Reply(fetched.value, fetched.err, listed.calls + fetched.calls)
  }

  /** The metadata UIDs the runtime reports for the sandboxes it lists. */
  ghost function ListedUids(view: RuntimeView): set<string> {
    set s | s in view.sandboxes && s.id in view.sandboxStatus :: view.sandboxStatus[s.id].metadata.uid
  }

  /** A successful refresh caches one record per listed sandbox, under the
      metadata UID its status reports, and nothing else; each record is the
      runtime's status of its sandbox. */
  lemma RefreshKeys(view: RuntimeView)
    requires Refresh(view).err.None?
    ensures forall k :: k in Refresh(view).value ==> RecordFor(view, Refresh(view).value[k], k)
    ensures Refresh(view).value.Keys == ListedUids(view)
  {
    var ps := view.sandboxes;
    var r := Refresh(view);
    FetchSandboxesKeys(view, ps);
    forall k | k in r.value ensures k in ListedUids(view) {
      var i :| 0 <= i < |ps| && ps[i].id == r.value[k].id;
      assert RecordFor(view, r.value[k], k);
      assert ps[i] in ps;
    }
    forall k | k in ListedUids(view) ensures k in r.value {
      var s :| s in ps && s.id in view.sandboxStatus && view.sandboxStatus[s.id].metadata.uid == k;
    }
  }


  // ---------------------------------------------------------------------
  // findPodByName (pkg/providers/mycri.go:296-306).

  predicate Matches(p: PodRecord, namespace: string, name: string) {
    p.status.metadata.name == name && p.status.metadata.namespace == namespace
  }

  /** `found` is a possible answer of the lookup: some cached record with
      that namespace and name, or None exactly when there is none. */
  ghost predicate FoundBy(cache: map<string, PodRecord>, namespace: string, name: string, found: Option<PodRecord>) {
    && (found.None? <==> forall k :: k in cache ==> !Matches(cache[k], namespace, name))
    && (found.Some? ==> found.value in cache.Values && Matches(found.value, namespace, name))
  }

  // ---------------------------------------------------------------------
  // The container loop of createPod (pkg/providers/mycri.go:226-243).

  /** One container: pull its image, build its request from the resolved
      reference, create it in sandbox `pId` and start it. The start error
      is assigned to a variable local to the loop body and is dropped. */
  function ContainerStep(view: RuntimeView, pod: Kube.Pod, c: Kube.Container, pId: string, pConfig: PodSandboxConfig, volPath: string): (r: Reply<()>)
    ensures |r.calls| >= 1 && r.calls[0] == PullImageCall(ImageSpec(c.image))
    ensures r.err.Some? ==> r.err == Some(RuntimeFailure)
    ensures forall call :: call in r.calls ==> !call.RunPodSandboxCall?
    ensures forall call :: call in r.calls && call.CreateContainerCall? ==>
      call.sandboxId == pId && call.sandboxConfig == pConfig && call.containerConfig.metadata.name == c.name
    ensures PullImage(view, c.image).err.Some? ==> r.err.Some? && r.calls == [PullImageCall(ImageSpec(c.image))]
  {
    var pull := PullImage(view, c.image);
    if pull.err.Some? then Reply((), pull.err, pull.calls)
    else
      var cConfig := RemoteContainer.GenerateContainerConfig(c, pod, pull.value, volPath, 0).0;
      var create := RemoteContainer.CreateContainer(view, cConfig, pConfig, pId);
      if create.err.Some? then Reply((), create.err, pull.calls + create.calls)
      else
        var start := RemoteContainer.StartContainer(view, create.value);
        Reply((), None, pull.calls + create.calls + start.calls)
  }

  /** The loop over the declared containers, in declaration order, stopping
      at the first failed step. */
  function ContainerLoop(view: RuntimeView, pod: Kube.Pod, cs: seq<Kube.Container>, pId: string, pConfig: PodSandboxConfig, volPath: string): (r: Reply<()>)
    ensures r.err.Some? ==> r.err == Some(RuntimeFailure)
    ensures forall call :: call in r.calls ==> !call.RunPodSandboxCall?
    ensures forall call :: call in r.calls && call.CreateContainerCall? ==> call.sandboxId == pId && call.sandboxConfig == pConfig
    decreases |cs|, 1
  {
    if cs == [] then Reply((), None, [])
    else ContainerLoopThrough(view, pod, cs, pId, pConfig, volPath)
  }

  /** ContainerLoop on a non-empty list: the earlier containers, then the
      last one unless an earlier step failed. */
  function ContainerLoopThrough(view: RuntimeView, pod: Kube.Pod, cs: seq<Kube.Container>, pId: string, pConfig: PodSandboxConfig, volPath: string): (r: Reply<()>)
    requires cs != []
    decreases |cs|, 0
  {
    var prev := ContainerLoop(view, pod, cs[..|cs| - 1], pId, pConfig, volPath);
    if prev.err.Some? then prev
    else
      var step := ContainerStep(view, pod, cs[|cs| - 1], pId, pConfig, volPath);
      Reply((), step.err, prev.calls + step.calls)
  }

  /** One more container after a successful prefix. */
  lemma ContainerLoopStep(view: RuntimeView, pod: Kube.Pod, cs: seq<Kube.Container>, pId: string, pConfig: PodSandboxConfig, volPath: string, i: nat)
    requires i < |cs| && ContainerLoop(view, pod, cs[..i], pId, pConfig, volPath).err.None?
    ensures var prev, step := ContainerLoop(view, pod, cs[..i], pId, pConfig, volPath), ContainerStep(view, pod, cs[i], pId, pConfig, volPath);
      && (step.err.None? ==> ContainerLoop(view, pod, cs[..i + 1], pId, pConfig, volPath) == Reply((), None, prev.calls + step.calls))
      && (step.err.Some? ==> ContainerLoop(view, pod, cs, pId, pConfig, volPath) == Reply((), step.err, prev.calls + step.calls))
  {
    assert cs[..i + 1][..i] == cs[..i];
    if ContainerStep(view, pod, cs[i], pId, pConfig, volPath).err.Some? {
      ContainerLoopErrorSticks(view, pod, cs, pId, pConfig, volPath, i + 1);
    }
  }

  lemma {:induction false} ContainerLoopErrorSticks(view: RuntimeView, pod: Kube.Pod, cs: seq<Kube.Container>, pId: string, pConfig: PodSandboxConfig, volPath: string, i: nat)
    requires i <= |cs| && ContainerLoop(view, pod, cs[..i], pId, pConfig, volPath).err.Some?
    ensures ContainerLoop(view, pod, cs, pId, pConfig, volPath) == ContainerLoop(view, pod, cs[..i], pId, pConfig, volPath)
    decreases |cs| - i
  {
    if i < |cs| {
      var front := cs[..|cs| - 1];
      assert front[..i] == cs[..i];
      ContainerLoopErrorSticks(view, pod, front, pId, pConfig, volPath, i);
    } else {
      assert cs[..i] == cs;
    }
  }

  /** The first failed step ends the loop: the loop returns that step's
      error, and the requests sent are those of the earlier containers and
      of that step, so no later container is pulled or created. */
  lemma ContainerLoopHaltsAtFirstFailure(view: RuntimeView, pod: Kube.Pod, cs: seq<Kube.Container>, pId: string, pConfig: PodSandboxConfig, volPath: string, i: nat)
    requires i < |cs|
    requires forall j :: 0 <= j < i ==> ContainerStep(view, pod, cs[j], pId, pConfig, volPath).err.None?
    requires ContainerStep(view, pod, cs[i], pId, pConfig, volPath).err.Some?
    ensures var r := ContainerLoop(view, pod, cs, pId, pConfig, volPath);
      && r.err == ContainerStep(view, pod, cs[i], pId, pConfig, volPath).err
      && r.calls == ContainerLoop(view, pod, cs[..i], pId, pConfig, volPath).calls + ContainerStep(view, pod, cs[i], pId, pConfig, volPath).calls
  {
    ContainerLoopSucceeds(view, pod, cs[..i], pId, pConfig, volPath);
    assert cs[..i + 1][..i] == cs[..i];
    ContainerLoopErrorSticks(view, pod, cs, pId, pConfig, volPath, i + 1);
  }

  /** When no step fails, the loop reaches its end and returns no error. */
  lemma {:induction false} ContainerLoopSucceeds(view: RuntimeView, pod: Kube.Pod, cs: seq<Kube.Container>, pId: string, pConfig: PodSandboxConfig, volPath: string)
    requires forall j :: 0 <= j < |cs| ==> ContainerStep(view, pod, cs[j], pId, pConfig, volPath).err.None?
    ensures ContainerLoop(view, pod, cs, pId, pConfig, volPath).err.None?
    decreases |cs|
  {
    if cs != [] {
      ContainerLoopSucceeds(view, pod, cs[..|cs| - 1], pId, pConfig, volPath);
    }
  }

  /** The runtime with every StartContainer failure removed. */
  function WithoutStartFailures(view: RuntimeView): (v: RuntimeView)
    ensures v.failing == set c | c in view.failing && !c.StartContainerCall?
    ensures v.(failing := view.failing) == view
  {
    view.(failing := set c | c in view.failing && !c.StartContainerCall?)
  }

  /** A failed StartContainer changes nothing: neither the requests sent
      nor the result of the loop. */
  lemma {:induction false} ContainerLoopIgnoresStartFailures(view: RuntimeView, pod: Kube.Pod, cs: seq<Kube.Container>, pId: string, pConfig: PodSandboxConfig, volPath: string)
    ensures ContainerLoop(view, pod, cs, pId, pConfig, volPath) == ContainerLoop(WithoutStartFailures(view), pod, cs, pId, pConfig, volPath)
    decreases |cs|
  {
    if cs != [] {
      ContainerLoopIgnoresStartFailures(view, pod, cs[..|cs| - 1], pId, pConfig, volPath);
      ContainerStepIgnoresStartFailures(view, pod, cs[|cs| - 1], pId, pConfig, volPath);
    }
  }

  lemma ContainerStepIgnoresStartFailures(view: RuntimeView, pod: Kube.Pod, c: Kube.Container, pId: string, pConfig: PodSandboxConfig, volPath: string)
    ensures ContainerStep(view, pod, c, pId, pConfig, volPath) == ContainerStep(WithoutStartFailures(view), pod, c, pId, pConfig, volPath)
  {
    var w := WithoutStartFailures(view);
    assert PullImage(view, c.image) == PullImage(w, c.image);
    var pull := PullImage(view, c.image);
    if pull.err.None? {
      var cConfig := RemoteContainer.GenerateContainerConfig(c, pod, pull.value, volPath, 0).0;
      assert RemoteContainer.CreateContainer(view, cConfig, pConfig, pId) == RemoteContainer.CreateContainer(w, cConfig, pConfig, pId);
    }
  }

  // ---------------------------------------------------------------------
  // createPod after a successful refresh (pkg/providers/mycri.go:193-245).

  datatype CreateOutcome = CreateOutcome(err: Option<Error>, calls: seq<Call>, diskOps: seq<DiskOp>)

  /** The sandbox request createPod sends: log directory `{logRoot}/{uid}`,
      attempt 0. */
  function SandboxConfigFor(pod: Kube.Pod, logRoot: string): (r: PodSandboxConfig)
    ensures r.metadata == PodSandboxMetadata(pod.meta.name, pod.meta.uid, pod.meta.namespace, 0)
    ensures r.annotations == pod.meta.annotations
    ensures r.logDirectory == JoinPath(logRoot, pod.meta.uid)
  {
    RemoteSandbox.GeneratePodSandboxConfig(pod, JoinPath(logRoot, pod.meta.uid), 0).0
  }

  /** createPod once the cache is refreshed and the lookup by namespace and
      name has answered `existing`. A new pod gets its log and volume
      directories and a new sandbox, in that order, each failure aborting;
      a pod matching a cached record reuses that record's metadata UID as
      the sandbox id. Then comes the container loop, whose StartContainer
      errors are lost, so reaching the end means success. */
  function CreateAfterRefresh(view: RuntimeView, diskFailing: set<DiskOp>, pod: Kube.Pod, existing: Option<PodRecord>, logRoot: string, volRoot: string): (r: CreateOutcome)
    ensures existing.Some? ==> r.diskOps == []
    ensures existing.Some? ==> forall call :: call in r.calls ==> !call.RunPodSandboxCall?
    ensures existing.Some? ==> forall call :: call in r.calls && call.CreateContainerCall? ==>
      call.sandboxId == existing.value.status.metadata.uid
    ensures existing.None? ==> 1 <= |r.diskOps| <= 2 && r.diskOps[0] == MkdirAll(JoinPath(logRoot, pod.meta.uid))
    ensures existing.None? && |r.diskOps| == 2 ==> r.diskOps[1] == MkdirAll(JoinPath(volRoot, pod.meta.uid))
    ensures existing.None? && (exists op :: op in r.diskOps && op in diskFailing) ==> r.err == Some(LocalIoFailure) && r.calls == []
    ensures existing.None? && r.calls != [] ==>
      && r.calls[0] == RunPodSandboxCall(SandboxConfigFor(pod, logRoot))
      && |r.diskOps| == 2 && (forall op :: op in r.diskOps ==> op !in diskFailing)
      && forall call :: call in r.calls[1..] ==> !call.RunPodSandboxCall?
    ensures r.err.Some? ==> r.err == Some(LocalIoFailure) || r.err == Some(RuntimeFailure)
    ensures forall call :: call in r.calls && call.CreateContainerCall? ==> call.sandboxConfig == SandboxConfigFor(pod, logRoot)
  {
    var logPath := JoinPath(logRoot, pod.meta.uid);
    var volPath := JoinPath(volRoot, pod.meta.uid);
    var pConfig := SandboxConfigFor(pod, logRoot);
    if existing.Some? then
      var loop := ContainerLoop(view, pod, pod.spec.containers, existing.value.status.metadata.uid, pConfig, volPath);
      CreateOutcome(loop.err, loop.calls, [])
    else if MkdirAll(logPath) in diskFailing then
      CreateOutcome(Some(LocalIoFailure), [], [MkdirAll(logPath)])
    else if MkdirAll(volPath) in diskFailing then
      CreateOutcome(Some(LocalIoFailure), [], [MkdirAll(logPath), MkdirAll(volPath)])
    else
      var run := RemoteSandbox.RunPodSandbox(view, pConfig);
      if run.err.Some? then CreateOutcome(run.err, run.calls, [MkdirAll(logPath), MkdirAll(volPath)])
      else
        var loop := ContainerLoop(view, pod, pod.spec.containers, run.value, pConfig, volPath);
        assert (run.calls + loop.calls)[1..] == loop.calls;
        CreateOutcome(loop.err, run.calls + loop.calls, [MkdirAll(logPath), MkdirAll(volPath)])
  }

  /** A new pod's containers are created in the sandbox RunPodSandbox
      answered with. */
  lemma NewPodUsesAssignedSandbox(view: RuntimeView, diskFailing: set<DiskOp>, pod: Kube.Pod, logRoot: string, volRoot: string)
    ensures var r := CreateAfterRefresh(view, diskFailing, pod, None, logRoot, volRoot);
      forall call :: call in r.calls && call.CreateContainerCall? ==>
        call.sandboxId == view.AssignedId(RunPodSandboxCall(SandboxConfigFor(pod, logRoot)))
  {
  }

  /** createPod's outcome does not depend on whether StartContainer
      fails. */
  lemma CreateIgnoresStartFailures(view: RuntimeView, diskFailing: set<DiskOp>, pod: Kube.Pod, existing: Option<PodRecord>, logRoot: string, volRoot: string)
    ensures CreateAfterRefresh(view, diskFailing, pod, existing, logRoot, volRoot)
         == CreateAfterRefresh(WithoutStartFailures(view), diskFailing, pod, existing, logRoot, volRoot)
  {
    var w := WithoutStartFailures(view);
    var volPath := JoinPath(volRoot, pod.meta.uid);
    var pConfig := SandboxConfigFor(pod, logRoot);
    assert RemoteSandbox.RunPodSandbox(view, pConfig) == RemoteSandbox.RunPodSandbox(w, pConfig);
    var pId := if existing.Some? then existing.value.status.metadata.uid
               else RemoteSandbox.RunPodSandbox(view, pConfig).value;
    ContainerLoopIgnoresStartFailures(view, pod, pod.spec.containers, pId, pConfig, volPath);
  }

  // ---------------------------------------------------------------------
  // deletePod after a successful refresh (pkg/providers/mycri.go:255-277).

  datatype DeleteOutcome = DeleteOutcome(err: Option<Error>, calls: seq<Call>, diskOps: seq<DiskOp>, notify: bool)

  /** deletePod once the cache is refreshed: a pod whose UID is not cached
      is not found and nothing is sent; otherwise its sandbox is stopped,
      its volume directory removed and the sandbox removed, in that order,
      the pod is notified, and only the removal's error is answered. */
  function DeleteAfterRefresh(view: RuntimeView, cache: map<string, PodRecord>, pod: Kube.Pod, volRoot: string): (r: DeleteOutcome)
    ensures r.notify <==> pod.meta.uid in cache
    ensures pod.meta.uid !in cache ==> r.err == Some(NotFound) && r.calls == [] && r.diskOps == []
    ensures pod.meta.uid in cache ==>
      var id := cache[pod.meta.uid].status.id;
      && r.diskOps == [RemoveAll(JoinPath(volRoot, pod.meta.uid))]
      && (id == "" ==> r.calls == [] && r.err == Some(InvalidInput))
      && (id != "" ==> r.calls == [StopPodSandboxCall(id), RemovePodSandboxCall(id)]
                       && (r.err.Some? <==> RemovePodSandboxCall(id) in view.failing))
    ensures r.err.Some? ==> r.err == Some(NotFound) || r.err == Some(InvalidInput) || r.err == Some(RuntimeFailure)
  {
    if pod.meta.uid !in cache then DeleteOutcome(Some(NotFound), [], [], false)
    else
      var id := cache[pod.meta.uid].status.id;
      var stop := RemoteSandbox.StopPodSandbox(view, id);
      var remove := RemoteSandbox.RemovePodSandbox(view, id);
      DeleteOutcome(remove.err, stop.calls + remove.calls, [RemoveAll(JoinPath(volRoot, pod.meta.uid))], true)
  }

  /** The runtime with every StopPodSandbox request succeeding. */
  function WithoutStopFailures(view: RuntimeView): (v: RuntimeView)
    ensures forall call :: call in v.failing <==> call in view.failing && !call.StopPodSandboxCall?
    ensures v.(failing := view.failing) == view
  {
    view.(failing := set call | call in view.failing && !call.StopPodSandboxCall?)
  }

  /** deletePod's outcome does not depend on whether stopping the sandbox
      fails. */
  lemma DeleteIgnoresStopFailures(view: RuntimeView, cache: map<string, PodRecord>, pod: Kube.Pod, volRoot: string)
    ensures DeleteAfterRefresh(view, cache, pod, volRoot) == DeleteAfterRefresh(WithoutStopFailures(view), cache, pod, volRoot)
  {
  }
}
