/** The CRI provider of pkg/providers: the reconciliation engine of
    mycri.go, the script-pod path of customize_container.go and the entry
    points of provider.go, all methods of one object.

    The object holds, besides the fields of mycri.go:
    - `podManager`, the PodManager whose script partition customize_container.go
      writes;
    - `signalled`, the script partition as it stood at each send on the
      notification channel (so `|signalled|` counts the signals);
    - `notified`, every pod passed to the framework's notifyStatus callback;
    - `jobs`, the script commands started whose completion has not run yet.
    The runtime, the directory oracle, the CPU count and the clock are
    parameters. The engine's loops are in module EngineLoops, shared with
    the copy of pkg/pod/pod.go. */
module Providers {
  import opened Common
  import opened Cri
  import Kube
  import RemoteSandbox
  import RemoteContainer
  import opened Manager
  import LegacyProjector
  import opened Reconcile
  import EngineLoops
  import NodeConfig

  const PodLogRoot: string := "/var/log/vk-cri/"
  const PodVolRoot: string := "/run/vk-cri/volumes/"
  const DefaultNodeName: string := "mynode"

  // ---------------------------------------------------------------------
  // Routing (pkg/providers/provider.go:17 and 33).

  /** Go's lookup in a non-nil map: "" for a missing key. */
  function Lookup(m: map<string, string>, key: string): (v: string)
    ensures key in m ==> v == m[key]
    ensures key !in m ==> v == ""
  {
    if key in m then m[key] else ""
  }

  /** A pod goes to the script path iff it has annotations and its "type"
      annotation is "bash". */
  predicate IsScriptPod(pod: Kube.Pod): (b: bool)
    ensures b <==>
      pod.meta.annotations.Some? && "type" in pod.meta.annotations.value && pod.meta.annotations.value["type"] == "bash"
  {
    pod.meta.annotations.Some? && Lookup(pod.meta.annotations.value, "type") == "bash"
  }

  // ---------------------------------------------------------------------
  // Script commands (pkg/providers/customize_container.go:14-58).

  /** How a process ended: an exit error carries the process's exit code;
      any other error (the program could not be started, say) carries
      none. */
  datatype RunError = ExitError(code: int) | OtherError

  /** What running a command produced; stands for the operating system. */
  datatype ProcessOutcome = ProcessOutcome(stdout: string, stderr: string, err: Option<RunError>)

  const OtherErrorExitCode: int := -9999

  datatype CommandSpec = CommandSpec(program: string, args: seq<string>, containerName: string)

  /** The command built for one declared container: none for an empty
      command; otherwise the first word is the program and the rest of the
      command followed by the arguments are its arguments. */
  function CommandFor(c: Kube.Container): (r: Option<CommandSpec>)
    ensures r.None? <==> c.command == []
    ensures r.Some? ==> && r.value.program == c.command[0]
                        && r.value.args == c.command[1..] + c.args
                        && r.value.containerName == c.name
  {
    if |c.command| == 0 then None else Some(CommandSpec(c.command[0], c.command[1..] + c.args, c.name))
  }

  /** The commands of all the containers, in declaration order. */
  function CommandsFor(cs: seq<Kube.Container>): (r: seq<CommandSpec>)
    ensures |r| <= |cs|
    decreases |cs|
  {
    if cs == [] then []
    else
      var front := CommandsFor(cs[..|cs| - 1]);
      match CommandFor(cs[|cs| - 1])
      case None => front
      case Some(s) => front + [s]
  }

  /** Building the commands of two runs of containers one after the other
      gives the first run's commands followed by the second's: the commands
      keep the declaration order. */
  lemma {:induction false} CommandsForAppend(a: seq<Kube.Container>, b: seq<Kube.Container>)
    ensures CommandsFor(a + b) == CommandsFor(a) + CommandsFor(b)
    decreases |b|
  {
    if b == [] {
      assert a + b == a;
    } else {
      var front := b[..|b| - 1];
      assert (a + b)[..|a + b| - 1] == a + front;
      assert (a + b)[|a + b| - 1] == b[|b| - 1];
      CommandsForAppend(a, front);
    }
  }

  /** A command is built exactly for each container with a non-empty
      command. */
  lemma CommandsForEachCommandedContainer(cs: seq<Kube.Container>)
    ensures forall s :: s in CommandsFor(cs) <==> exists i :: 0 <= i < |cs| && CommandFor(cs[i]) == Some(s)
  {
    CommandsComeFromContainers(cs);
    CommandedContainersGiveCommands(cs);
  }

  lemma {:induction false} CommandsComeFromContainers(cs: seq<Kube.Container>)
    ensures forall s :: s in CommandsFor(cs) ==> exists i :: 0 <= i < |cs| && CommandFor(cs[i]) == Some(s)
    decreases |cs|
  {
    if cs != [] {
      var front := cs[..|cs| - 1];
      CommandsComeFromContainers(front);
      forall s | s in CommandsFor(cs) ensures exists i :: 0 <= i < |cs| && CommandFor(cs[i]) == Some(s) {
        if s !in CommandsFor(front) {
          assert CommandFor(cs[|cs| - 1]) == Some(s);
        } else {
          var i :| 0 <= i < |front| && CommandFor(front[i]) == Some(s);
          assert cs[i] == front[i];
        }
      }
    }
  }

  lemma {:induction false} CommandedContainersGiveCommands(cs: seq<Kube.Container>)
    ensures forall i :: 0 <= i < |cs| && CommandFor(cs[i]).Some? ==> CommandFor(cs[i]).value in CommandsFor(cs)
    decreases |cs|
  {
    if cs != [] {
      var front := cs[..|cs| - 1];
      CommandedContainersGiveCommands(front);
      forall i | 0 <= i < |cs| && CommandFor(cs[i]).Some? ensures CommandFor(cs[i]).value in CommandsFor(cs) {
        if i < |front| {
          assert front[i] == cs[i];
        }
      }
    }
  }

  class ContainerCmd {
    const program: string
    const args: seq<string>
    const containerName: string
    var exitCode: int
    var execError: Option<RunError>

    constructor (program: string, args: seq<string>, containerName: string)
      ensures this.program == program && this.args == args && this.containerName == containerName
      ensures exitCode == 0 && execError == None
    {
      this.program := program;
      this.args := args;
      this.containerName := containerName;
      exitCode := 0;
      execError := None;
    }

    predicate Describes(s: CommandSpec)
      reads this
    {
      program == s.program && args == s.args && containerName == s.containerName
      && exitCode == 0 && execError == None
    }

    /** Run: the process output and error as they came. An exit error
        records the process's exit code; any other error records -9999 and
        the error; success leaves both fields alone. */
    method Run(outcome: ProcessOutcome) returns (stdout: string, stderr: string, err: Option<RunError>)
      modifies this
      ensures stdout == outcome.stdout && stderr == outcome.stderr && err == outcome.err
      ensures outcome.err == None ==> exitCode == old(exitCode) && execError == old(execError)
      ensures outcome.err.Some? && outcome.err.value.ExitError? ==>
        exitCode == outcome.err.value.code && execError == old(execError)
      ensures outcome.err == Some(OtherError) ==> exitCode == OtherErrorExitCode && execError == Some(OtherError)
    {
      stdout, stderr, err := outcome.stdout, outcome.stderr, outcome.err;
      if err.Some? {
        match err.value
        case ExitError(code) =>
          exitCode := code;
        case OtherError =>
          exitCode := OtherErrorExitCode;
          execError := err;
      }
    }
  }

  datatype ScriptJob = ScriptJob(uid: string, cmd: ContainerCmd)

  function JobsFor(uid: string, cmds: seq<ContainerCmd>): (r: seq<ScriptJob>)
    decreases |cmds|
  {
    if cmds == [] then [] else JobsFor(uid, cmds[..|cmds| - 1]) + [ScriptJob(uid, cmds[|cmds| - 1])]
  }

  // ---------------------------------------------------------------------
  // Script-pod records (pkg/providers/customize_container.go:62-113).

  /** A container record as first inserted: id `{uid}{name}`, started three
      seconds after `now`, CREATED with message "Creating". */
  function CreatingStatus(uid: string, name: string, now: int): (s: Cri.ContainerStatus)
    ensures s.id == uid + name && s.metadata.name == name
    ensures s.state == ContainerCreated && s.message == "Creating"
    ensures s.createdAt == now && s.startedAt == now + 3
  {
    Cri.ContainerStatus(uid + name, ContainerMetadata(name, 0), ContainerCreated, now, now + 3, 0, 0, None, "", "", "Creating")
  }

  /** The same record once its command is started. */
  function RunningStatus(uid: string, name: string, now: int): (s: Cri.ContainerStatus)
    ensures s.state == ContainerRunning && s.message == "Running"
    ensures s.(state := ContainerCreated, message := "Creating") == CreatingStatus(uid, name, now)
  {
    CreatingStatus(uid, name, now).(state := ContainerRunning, message := "Running")
  }

  /** The containers map after the loop has handled `specs`: one running
      record per container name. */
  function StartedContainers(uid: string, specs: seq<CommandSpec>, now: int): (m: map<string, Cri.ContainerStatus>)
    ensures specs == [] <==> m == map[]
    ensures specs != [] ==> var n := specs[|specs| - 1].containerName; n in m && m[n] == RunningStatus(uid, n, now)
    decreases |specs|
  {
    if specs == [] then map[]
    else
      var name := specs[|specs| - 1].containerName;
      StartedContainers(uid, specs[..|specs| - 1], now)[name := RunningStatus(uid, name, now)]
  }

  /** The started containers are keyed by the commands' container names,
      each one running. */
  lemma StartedContainersKeys(uid: string, specs: seq<CommandSpec>, now: int)
    ensures var m := StartedContainers(uid, specs, now);
      && (forall n :: n in m <==> exists i :: 0 <= i < |specs| && specs[i].containerName == n)
      && (forall n :: n in m ==> m[n] == RunningStatus(uid, n, now))
  {
    StartedContainersNamed(uid, specs, now);
    StartedContainersRunning(uid, specs, now);
  }

  lemma {:induction false} StartedContainersNamed(uid: string, specs: seq<CommandSpec>, now: int)
    ensures var m := StartedContainers(uid, specs, now);
      forall n :: n in m <==> exists i :: 0 <= i < |specs| && specs[i].containerName == n
    decreases |specs|
  {
    if specs != [] {
      var front := specs[..|specs| - 1];
      var last := specs[|specs| - 1].containerName;
      StartedContainersNamed(uid, front, now);
      var m := StartedContainers(uid, specs, now);
      assert m.Keys == StartedContainers(uid, front, now).Keys + {last};
      forall n | n in m ensures exists i :: 0 <= i < |specs| && specs[i].containerName == n {
        if n != last {
          var i :| 0 <= i < |front| && front[i].containerName == n;
          assert specs[i] == front[i];
        }
      }
      forall n | exists i :: 0 <= i < |specs| && specs[i].containerName == n ensures n in m {
        var i :| 0 <= i < |specs| && specs[i].containerName == n;
        if i < |front| {
          assert front[i] == specs[i];
        }
      }
    }
  }

  lemma {:induction false} StartedContainersRunning(uid: string, specs: seq<CommandSpec>, now: int)
    ensures var m := StartedContainers(uid, specs, now);
      forall n :: n in m ==> m[n] == RunningStatus(uid, n, now)
    decreases |specs|
  {
    if specs != [] {
      StartedContainersRunning(uid, specs[..|specs| - 1], now);
    }
  }

  /** A ready sandbox under the pod's UID, with the pod's name and
      namespace, created at `now`. */
  function SampleSandboxStatus(pod: Kube.Pod, now: int): (s: PodSandboxStatus)
    ensures s.id == pod.meta.uid && s.state == SandboxReady && s.createdAt == now
    ensures s.metadata == PodSandboxMetadata(pod.meta.name, pod.meta.uid, pod.meta.namespace, 0)
  {
    PodSandboxStatus(pod.meta.uid, PodSandboxMetadata(pod.meta.name, pod.meta.uid, pod.meta.namespace, 0), SandboxReady, now, None)
  }

  function SampleRecord(pod: Kube.Pod, specs: seq<CommandSpec>, now: int): (r: PodRecord)
    ensures r.id == pod.meta.uid && r.status == SampleSandboxStatus(pod, now)
    ensures r.containers == StartedContainers(pod.meta.uid, specs, now)
  {
    PodRecord(pod.meta.uid, StartedContainers(pod.meta.uid, specs, now), SampleSandboxStatus(pod, now))
  }

  /** The record createSamplePod signals while starting the container
      `name`: the containers started so far, and `name` as Creating. */
  function CreatingSnapshot(pod: Kube.Pod, started: seq<CommandSpec>, name: string, now: int): (r: PodRecord)
    ensures r.id == pod.meta.uid && r.status == SampleSandboxStatus(pod, now)
    ensures r.containers.Keys == StartedContainers(pod.meta.uid, started, now).Keys + {name}
    ensures r.containers[name] == CreatingStatus(pod.meta.uid, name, now)
  {
    var rec := SampleRecord(pod, started, now);
    rec.(containers := rec.containers[name := CreatingStatus(pod.meta.uid, name, now)])
  }

  /** In that snapshot every other container is one already started, and
      Running. */
  lemma CreatingSnapshotShowsStarted(pod: Kube.Pod, started: seq<CommandSpec>, name: string, now: int)
    ensures var r := CreatingSnapshot(pod, started, name, now);
      forall n :: n in r.containers && n != name ==>
        && (exists i :: 0 <= i < |started| && started[i].containerName == n)
        && r.containers[n] == RunningStatus(pod.meta.uid, n, now)
  {
    StartedContainersKeys(pod.meta.uid, started, now);
  }

  /** The pod's record at each signal createSamplePod sends after the
      first: two per command, the container as Creating, then the record
      with it Running. The sandbox stays ready throughout. */
  function SignalRecords(pod: Kube.Pod, specs: seq<CommandSpec>, now: int): (r: seq<PodRecord>)
    ensures |r| == 2 * |specs|
    ensures forall k :: 0 <= k < |r| ==> r[k].id == pod.meta.uid && r[k].status == SampleSandboxStatus(pod, now)
    decreases |specs|, 1
  {
    if specs == [] then []
    else SignalRecordsThrough(pod, specs, now)
  }

  function SignalRecordsThrough(pod: Kube.Pod, specs: seq<CommandSpec>, now: int): (r: seq<PodRecord>)
    requires specs != []
    decreases |specs|, 0
  {
      var n := |specs| - 1;
      SignalRecords(pod, specs[..n], now) + [CreatingSnapshot(pod, specs[..n], specs[n].containerName, now), SampleRecord(pod, specs, now)]
  }

  /** The signals for command `i` show its container as Creating among
      those started before it, then the record with the first `i + 1`
      commands running. */
  lemma {:induction false} SignalRecordsShowEachCommand(pod: Kube.Pod, specs: seq<CommandSpec>, now: int, i: nat)
    requires i < |specs|
    ensures SignalRecords(pod, specs, now)[2 * i] == CreatingSnapshot(pod, specs[..i], specs[i].containerName, now)
    ensures SignalRecords(pod, specs, now)[2 * i + 1] == SampleRecord(pod, specs[..i + 1], now)
    decreases |specs|
  {
    var n := |specs| - 1;
    if i < n {
      SignalRecordsShowEachCommand(pod, specs[..n], now, i);
      assert specs[..n][..i] == specs[..i] && specs[..n][..i + 1] == specs[..i + 1];
      assert specs[..n][i] == specs[i];
    } else {
      assert specs[..i + 1] == specs;
    }
  }

  /** The script partition at each signal: `before` with the pod's record
      replaced, nothing else changed. */
  function Snapshots(before: map<string, PodRecord>, uid: string, recs: seq<PodRecord>): (r: seq<map<string, PodRecord>>)
    ensures |r| == |recs| && forall k :: 0 <= k < |recs| ==> r[k] == before[uid := recs[k]]
  {
    seq(|recs|, k requires 0 <= k < |recs| => before[uid := recs[k]])
  }

  /** The record after its command has run. A failure of any kind is
      recorded as exit code -9999, whatever exit code the process had. */
  function Finished(c: Cri.ContainerStatus, outcome: ProcessOutcome): (r: Cri.ContainerStatus)
    ensures r.state == ContainerExited
    ensures outcome.err.Some? ==> r.reason == "Error" && r.message == outcome.stderr && r.exitCode == OtherErrorExitCode
    ensures outcome.err.None? ==> r.reason == "Completed" && r.message == outcome.stdout && r.exitCode == 0
    ensures r.(state := c.state, reason := c.reason, message := c.message, exitCode := c.exitCode) == c
  {
    if outcome.err.Some? then c.(state := ContainerExited, reason := "Error", message := outcome.stderr, exitCode := OtherErrorExitCode)
    else c.(state := ContainerExited, reason := "Completed", message := outcome.stdout, exitCode := 0)
  }

  /** The record as deleteSamplePod leaves it: sandbox not ready, every
      container exited, nothing else changed. */
  function MarkTerminated(rec: PodRecord): (r: PodRecord)
    ensures r.id == rec.id && r.status == rec.status.(state := SandboxNotReady)
    ensures r.containers.Keys == rec.containers.Keys
    ensures forall n :: n in r.containers ==> r.containers[n] == rec.containers[n].(state := ContainerExited)
  {
    PodRecord(rec.id, map n | n in rec.containers :: rec.containers[n].(state := ContainerExited), rec.status.(state := SandboxNotReady))
  }

  /** createPodSpecFromCRI of mycri.go on one record, with its two map
      walks over the containers; None is a panic. */
  method RenderPod(p: PodRecord, nodeName: string) returns (q: Option<Kube.Pod>)
    ensures q.None? <==> LegacyProjector.Panics(p)
    ensures q.Some? ==> LegacyProjector.RendersAs(p, nodeName, q.value)
  {
    var specOrder := MapOrder(p.containers);
    var statusOrder := MapOrder(p.containers);
    LegacyProjector.LegacyPodSpecAgrees(p, nodeName, specOrder, statusOrder);
    q := LegacyProjector.LegacyPodSpecFromCri(p, nodeName, specOrder, statusOrder);
  }

  /** The loop of GetPods over a map walk of the cache: each record
      rendered with the projector copy of mycri.go, stopping at the first
      record that makes it panic. */
  method RenderPods(cache: map<string, PodRecord>, nodeName: string, order: seq<string>) returns (pods: seq<Kube.Pod>, panicked: bool)
    requires Enumerates(order, cache.Keys)
    ensures panicked <==> exists k :: k in cache && LegacyProjector.Panics(cache[k])
    ensures !panicked ==> LegacyProjector.ListsAll(cache, nodeName, pods)
  {
    pods := [];
    var i := 0;
    while i < |order|
      invariant 0 <= i <= |order|
      invariant |pods| == i
      invariant forall j :: 0 <= j < i ==> !LegacyProjector.Panics(cache[order[j]])
      invariant forall j :: 0 <= j < i ==> LegacyProjector.RendersAs(cache[order[j]], nodeName, pods[j])
    {
      var q := RenderPod(cache[order[i]], nodeName);
      if q.None? {
        return [], true;
      }
      pods := pods + [q.value];
      i := i + 1;
    }
    forall k | k in cache ensures !LegacyProjector.Panics(cache[k]) {
      var j :| 0 <= j < |order| && order[j] == k;
    }
    panicked := false;
  }

  /** The two updates of one iteration of createSamplePod's second loop
      turn the pod's record into the Creating snapshot, then into the
      record with one more command started. */
  lemma SignalStep(before: map<string, PodRecord>, pod: Kube.Pod, started: seq<CommandSpec>, spec: CommandSpec, now: int)
    ensures var uid, name := pod.meta.uid, spec.containerName;
      var m0 := before[uid := SampleRecord(pod, started, now)];
      var m1 := m0[uid := m0[uid].(containers := m0[uid].containers[name := CreatingStatus(uid, name, now)])];
      var m2 := m1[uid := m1[uid].(containers := m1[uid].containers[name := m1[uid].containers[name].(state := ContainerRunning, message := "Running")])];
      && m1 == before[uid := CreatingSnapshot(pod, started, name, now)]
      && m2 == before[uid := SampleRecord(pod, started + [spec], now)]
  {
    var uid, name := pod.meta.uid, spec.containerName;
    assert (started + [spec])[..|started|] == started;
    var front := StartedContainers(uid, started, now);
    var shown := CreatingSnapshot(pod, started, name, now);
    assert shown.containers[name := RunningStatus(uid, name, now)] == front[name := RunningStatus(uid, name, now)];
  }

  /** The signals of the first `i + 1` commands extend those of the first
      `i` by the two of command `i`. */
  lemma SignalRecordsStep(pod: Kube.Pod, specs: seq<CommandSpec>, i: nat, now: int)
    requires i < |specs|
    ensures SignalRecords(pod, specs[..i + 1], now)
      == SignalRecords(pod, specs[..i], now) + [CreatingSnapshot(pod, specs[..i], specs[i].containerName, now), SampleRecord(pod, specs[..i + 1], now)]
  {
    assert specs[..i + 1][..i] == specs[..i] && specs[..i + 1][i] == specs[i];
  }

  /** The signals of command `i`, as snapshots of the script partition,
      follow those of the commands before it. */
  lemma SnapshotsStep(before: map<string, PodRecord>, pod: Kube.Pod, specs: seq<CommandSpec>, i: nat, now: int)
    requires i < |specs|
    ensures var uid := pod.meta.uid;
      Snapshots(before, uid, SignalRecords(pod, specs[..i + 1], now))
      == Snapshots(before, uid, SignalRecords(pod, specs[..i], now))
         + Snapshots(before, uid, [CreatingSnapshot(pod, specs[..i], specs[i].containerName, now), SampleRecord(pod, specs[..i + 1], now)])
  {
    SignalRecordsStep(pod, specs, i, now);
    SnapshotsConcat(before, pod.meta.uid, SignalRecords(pod, specs[..i], now),
      [CreatingSnapshot(pod, specs[..i], specs[i].containerName, now), SampleRecord(pod, specs[..i + 1], now)]);
  }

  lemma SnapshotsConcat(before: map<string, PodRecord>, uid: string, a: seq<PodRecord>, b: seq<PodRecord>)
    ensures Snapshots(before, uid, a + b) == Snapshots(before, uid, a) + Snapshots(before, uid, b)
  {
  }

  // ---------------------------------------------------------------------

  class CriProvider {
    const options: ProviderConfig
    const rt: RuntimeClient
    const disk: Disk
    const podManager: PodManager
    const podLogRoot: string
    const podVolRoot: string
    const nodeName: string
    var podStatus: map<string, PodRecord>
    var notified: seq<Kube.Pod>
    ghost var signalled: seq<map<string, PodRecord>>
    var jobs: seq<ScriptJob>

    constructor Init(options: ProviderConfig, rt: RuntimeClient, disk: Disk, podManager: PodManager)
      ensures this.options == options && this.rt == rt && this.disk == disk && this.podManager == podManager
      ensures podLogRoot == PodLogRoot && podVolRoot == PodVolRoot && nodeName == DefaultNodeName
      ensures podStatus == map[] && notified == [] && signalled == [] && jobs == []
    {
      this.options := options;
      this.rt := rt;
      this.disk := disk;
      this.podManager := podManager;
      podLogRoot := PodLogRoot;
      podVolRoot := PodVolRoot;
      nodeName := DefaultNodeName;
      podStatus := map[];
      notified := [];
      signalled := [];
      jobs := [];
    }

    /** NewCriProvider: no provider unless both root directories can be
        created, the log root first. */
    static method NewCriProvider(options: ProviderConfig, rt: RuntimeClient, disk: Disk, podManager: PodManager)
      returns (c: Option<CriProvider>)
      modifies disk`log
      ensures MkdirAll(PodLogRoot) in disk.failing ==> c.None? && disk.log == old(disk.log) + [MkdirAll(PodLogRoot)]
      ensures MkdirAll(PodLogRoot) !in disk.failing ==> disk.log == old(disk.log) + [MkdirAll(PodLogRoot), MkdirAll(PodVolRoot)]
      ensures c.Some? <==> MkdirAll(PodLogRoot) !in disk.failing && MkdirAll(PodVolRoot) !in disk.failing
      ensures c.Some? ==> && fresh(c.value)
                          && c.value.rt == rt && c.value.disk == disk && c.value.podManager == podManager
                          && c.value.options == options && c.value.nodeName == DefaultNodeName
                          && c.value.podLogRoot == PodLogRoot && c.value.podVolRoot == PodVolRoot
                          && c.value.podStatus == map[] && c.value.notified == [] && c.value.jobs == []
    {
      var p := new CriProvider.Init(options, rt, disk, podManager);
      var err := disk.MkdirAllDir(p.podLogRoot);
      if err.Some? {
        return None;
      }
      err := disk.MkdirAllDir(p.podVolRoot);
      if err.Some? {
        return None;
      }
      return Some(p);
    }

    // -------------------------------------------------------------------
    // The engine (pkg/providers/mycri.go:190-364).

    /** The cache is replaced by the refresh only when every request of it
        succeeded. */
    twostate predicate CacheRefreshed()
      reads this, rt
    {
      var r := Refresh(rt.view);
      podStatus == (if r.err.None? then r.value else old(podStatus))
    }

    /** The refresh contract: the cache as above, and the requests of the
        refresh are all that is logged. */
    twostate predicate Refreshed()
      reads this, rt
    {
      CacheRefreshed() && rt.log == old(rt.log) + Refresh(rt.view).calls
    }

    /** refreshNodeState: all or nothing. */
    method RefreshNodeState() returns (err: Option<Error>)
      modifies this`podStatus, rt`log
      ensures Refreshed() && err == Refresh(rt.view).err
    {
      var listed := RemoteSandbox.GetPodSandboxes(rt.view);
      rt.log := rt.log + listed.calls;
      if listed.err.Some? {
        return listed.err;
      }
      var newStatus;
      newStatus, err := EngineLoops.CollectSandboxRecords(rt, listed.value);
      if err.None? {
        podStatus := newStatus;
      }
    }

    /** What createPod does, as promised by CreateAfterRefresh: a failed
        refresh is returned before any directory or sandbox request, and
        otherwise the lookup's answer `existing` decides between a new
        sandbox and the reused one. */
    twostate predicate RuntimeCreateEffect(pod: Kube.Pod, new err: Option<Error>, new existing: Option<PodRecord>)
      reads this, rt, disk
    {
      var r := Refresh(rt.view);
      && CacheRefreshed()
      && (r.err.Some? ==> err == r.err && rt.log == old(rt.log) + r.calls && disk.log == old(disk.log))
      && (r.err.None? ==>
            var out := CreateAfterRefresh(rt.view, disk.failing, pod, existing, podLogRoot, podVolRoot);
            && FoundBy(podStatus, pod.meta.namespace, pod.meta.name, existing)
            && err == out.err
            && rt.log == old(rt.log) + r.calls + out.calls
            && disk.log == old(disk.log) + out.diskOps)
    }

    /** createPod. */
    method CreateRuntimePod(pod: Kube.Pod) returns (err: Option<Error>, ghost existing: Option<PodRecord>)
      modifies this`podStatus, rt`log, disk`log
      ensures RuntimeCreateEffect(pod, err, existing)
    {
      existing := None;
      var logPath := JoinPath(podLogRoot, pod.meta.uid);
      var volPath := JoinPath(podVolRoot, pod.meta.uid);
      err := RefreshNodeState();
      if err.Some? {
        return;
      }
      ghost var log1 := rt.log;
      var pConfig := RemoteSandbox.GeneratePodSandboxConfig(pod, logPath, 0).0;
      var found := EngineLoops.FindPodByName(podStatus, pod.meta.namespace, pod.meta.name);
      existing := found;
      var pId: string;
      ghost var sent: seq<Call> := [];
      if found.None? {
        err := disk.MkdirAllDir(logPath);
        if err.Some? {
          return;
        }
        err := disk.MkdirAllDir(volPath);
        if err.Some? {
          return;
        }
        var run := RemoteSandbox.RunPodSandbox(rt.view, pConfig);
        rt.log := rt.log + run.calls;
        if run.err.Some? {
          return run.err, existing;
        }
        pId := run.value;
        sent := run.calls;
      } else {
        pId := found.value.status.metadata.uid;
      }
      err := EngineLoops.CreateContainers(rt, pod, pId, pConfig, volPath);
      AppendAssociates(log1, sent, ContainerLoop(rt.view, pod, pod.spec.containers, pId, pConfig, volPath).calls);
    }

    twostate predicate RuntimeDeleteEffect(pod: Kube.Pod, new err: Option<Error>)
      reads this, rt, disk
    {
      var r := Refresh(rt.view);
      && CacheRefreshed()
      && (r.err.Some? ==> err == r.err && rt.log == old(rt.log) + r.calls && disk.log == old(disk.log) && notified == old(notified))
      && (r.err.None? ==>
            var out := DeleteAfterRefresh(rt.view, r.value, pod, podVolRoot);
            && err == out.err
            && rt.log == old(rt.log) + r.calls + out.calls
            && disk.log == old(disk.log) + out.diskOps
            && notified == old(notified) + (if out.notify then [pod] else []))
    }

    /** deletePod: stop and volume-removal failures are ignored; the
        result is RemovePodSandbox's. */
    method DeleteRuntimePod(pod: Kube.Pod) returns (err: Option<Error>)
      modifies this`podStatus, this`notified, rt`log, disk`log
      ensures RuntimeDeleteEffect(pod, err)
    {
      err := RefreshNodeState();
      if err.Some? {
        return;
      }
      ghost var out := DeleteAfterRefresh(rt.view, podStatus, pod, podVolRoot);
      if pod.meta.uid !in podStatus {
        return Some(NotFound);
      }
      ghost var log1 := rt.log;
      var ps := podStatus[pod.meta.uid];
      var stop := RemoteSandbox.StopPodSandbox(rt.view, ps.status.id);
      rt.log := rt.log + stop.calls;
      var volPath := JoinPath(podVolRoot, pod.meta.uid);
      var removeErr := disk.RemoveAllDir(volPath);
      var remove := RemoteSandbox.RemovePodSandbox(rt.view, ps.status.id);
      rt.log := rt.log + remove.calls;
      AppendAssociates(log1, stop.calls, remove.calls);
      assert out.calls == stop.calls + remove.calls && out.err == remove.err;
      notified := notified + [pod];
      err := remove.err;
    }

    /** getPod, with the projector copy of mycri.go: a record without a
        network or image record panics (NilDereference). */
    method GetPod(namespace: string, name: string) returns (pod: Option<Kube.Pod>, err: Option<Error>, ghost found: Option<PodRecord>)
      modifies this`podStatus, rt`log
      ensures Refreshed()
      ensures Refresh(rt.view).err.Some? ==> err == Refresh(rt.view).err && pod.None?
      ensures Refresh(rt.view).err.None? ==> FoundBy(podStatus, namespace, name, found)
      ensures Refresh(rt.view).err.None? && found.None? ==> err == Some(NotFound) && pod.None?
      ensures Refresh(rt.view).err.None? && found.Some? && LegacyProjector.Panics(found.value) ==>
        err == Some(NilDereference) && pod.None?
      ensures Refresh(rt.view).err.None? && found.Some? && !LegacyProjector.Panics(found.value) ==>
        err.None? && pod.Some? && LegacyProjector.RendersAs(found.value, nodeName, pod.value)
    {
      found := None;
      pod := None;
      err := RefreshNodeState();
      if err.Some? {
        return;
      }
      var f := EngineLoops.FindPodByName(podStatus, namespace, name);
      found := f;
      if f.None? {
        err := Some(NotFound);
        return;
      }
      var p := f.value;
      var specOrder := MapOrder(p.containers);
      var statusOrder := MapOrder(p.containers);
      LegacyProjector.LegacyPodSpecAgrees(p, nodeName, specOrder, statusOrder);
      pod := LegacyProjector.LegacyPodSpecFromCri(p, nodeName, specOrder, statusOrder);
      if pod.None? {
        err := Some(NilDereference);
      }
    }

    /** getPodStatus, with the projector copy of mycri.go. */
    method GetPodStatus(namespace: string, name: string) returns (status: Option<Kube.PodStatus>, err: Option<Error>, ghost found: Option<PodRecord>)
      modifies this`podStatus, rt`log
      ensures Refreshed()
      ensures Refresh(rt.view).err.Some? ==> err == Refresh(rt.view).err && status.None?
      ensures Refresh(rt.view).err.None? ==> FoundBy(podStatus, namespace, name, found)
      ensures Refresh(rt.view).err.None? && found.None? ==> err == Some(NotFound) && status.None?
      ensures Refresh(rt.view).err.None? && found.Some? && LegacyProjector.Panics(found.value) ==>
        err == Some(NilDereference) && status.None?
      ensures Refresh(rt.view).err.None? && found.Some? && !LegacyProjector.Panics(found.value) ==>
        err.None? && status.Some? && LegacyProjector.RendersStatusAs(found.value, status.value)
    {
      found := None;
      status := None;
      err := RefreshNodeState();
      if err.Some? {
        return;
      }
      var f := EngineLoops.FindPodByName(podStatus, namespace, name);
      found := f;
      if f.None? {
        err := Some(NotFound);
        return;
      }
      var p := f.value;
      var order := MapOrder(p.containers);
      LegacyProjector.LegacyPodStatusAgrees(p, order);
      status := LegacyProjector.LegacyPodStatusFromCri(p, order);
      if status.None? {
        err := Some(NilDereference);
      }
    }

    /** GetPods: every cached record, rendered, in map-walk order; a
        record that cannot be rendered panics. */
    method GetPods() returns (pods: seq<Kube.Pod>, err: Option<Error>)
      modifies this`podStatus, rt`log
      ensures Refreshed()
      ensures Refresh(rt.view).err.Some? ==> err == Refresh(rt.view).err && pods == []
      ensures Refresh(rt.view).err.None? ==>
        (err.Some? <==> exists k :: k in podStatus && LegacyProjector.Panics(podStatus[k]))
      ensures Refresh(rt.view).err.None? && err.Some? ==> err == Some(NilDereference) && pods == []
      ensures err.None? ==> LegacyProjector.ListsAll(podStatus, nodeName, pods)
    {
      pods := [];
      err := RefreshNodeState();
      if err.Some? {
        return;
      }
      var order := MapOrder(podStatus);
      var panicked;
      pods, panicked := RenderPods(podStatus, nodeName, order);
      if panicked {
        pods, err := [], Some(NilDereference);
      }
    }

    /** notifyPodStatuses: every listed pod is passed to notifyStatus, in
        listing order; on an error nobody is notified. */
    method NotifyPodStatuses() returns (err: Option<Error>, ghost sent: seq<Kube.Pod>)
      modifies this`podStatus, this`notified, rt`log
      ensures Refreshed()
      ensures err.Some? <==>
        Refresh(rt.view).err.Some? || exists k :: k in podStatus && LegacyProjector.Panics(podStatus[k])
      ensures err.Some? ==> notified == old(notified)
      ensures err.None? ==> LegacyProjector.ListsAll(podStatus, nodeName, sent) && notified == old(notified) + sent
    {
      var pods;
      pods, err := GetPods();
      sent := [];
      if err.Some? {
        return;
      }
      NotifyEach(pods);
      sent := pods;
    }

    /** The loop of notifyPodStatuses: notifyStatus once per pod, in
        order. */
    method NotifyEach(pods: seq<Kube.Pod>)
      modifies this`notified
      ensures notified == old(notified) + pods
    {
      for i := 0 to |pods|
        invariant notified == old(notified) + pods[..i]
      {
        assert pods[..i + 1] == pods[..i] + [pods[i]];
        notified := notified + [pods[i]];
      }
      assert pods[..|pods|] == pods;
    }

    // -------------------------------------------------------------------
    // The script-pod path (pkg/providers/customize_container.go:41-138).

    /** What createSamplePod does: the script partition holds, under the
        pod's UID, a ready sandbox with one running record per command;
        the signals show the empty record first, then each container as
        Creating and as Running; one job per command is pending; notifyStatus
        is called once; the result is nil. */
    twostate predicate SampleCreateEffect(pod: Kube.Pod, now: int, new err: Option<Error>, new cmds: seq<ContainerCmd>)
      reads this, podManager, cmds
    {
      var uid := pod.meta.uid;
      var specs := CommandsFor(pod.spec.containers);
      var before := old(podManager.samplePodStatus);
      && err.None?
      && |cmds| == |specs|
      && (forall i :: 0 <= i < |cmds| ==> cmds[i].Describes(specs[i]))
      && podManager.samplePodStatus == before[uid := SampleRecord(pod, specs, now)]
      && jobs == old(jobs) + JobsFor(uid, cmds)
      && notified == old(notified) + [pod]
      && signalled == old(signalled) + Snapshots(before, uid, [SampleRecord(pod, [], now)] + SignalRecords(pod, specs, now))
    }

    /** The first loop of createSamplePod: one command object per container
        that has a command. */
    static method BuildCommands(cs: seq<Kube.Container>) returns (list: seq<ContainerCmd>)
      ensures |list| == |CommandsFor(cs)|
      ensures forall j :: 0 <= j < |list| ==> fresh(list[j]) && list[j].Describes(CommandsFor(cs)[j])
    {
      list := [];
      for i := 0 to |cs|
        invariant |list| == |CommandsFor(cs[..i])|
        invariant forall j :: 0 <= j < |list| ==> fresh(list[j]) && list[j].Describes(CommandsFor(cs[..i])[j])
      {
        assert cs[..i + 1][..i] == cs[..i];
        var c := cs[i];
        if |c.command| == 0 {
          continue;
        }
        var cmd := new ContainerCmd(c.command[0], c.command[1..] + c.args, c.name);
        list := list + [cmd];
      }
      assert cs[..|cs|] == cs;
    }

    /** The second loop of createSamplePod: per command, the record as
        Creating, a signal, the record as Running, a signal, and the
        command's goroutine. */
    method StartCommands(pod: Kube.Pod, now: int, list: seq<ContainerCmd>, ghost specs: seq<CommandSpec>, ghost before: map<string, PodRecord>)
      requires podManager.samplePodStatus == before[pod.meta.uid := SampleRecord(pod, [], now)]
      requires |list| == |specs|
      requires forall i :: 0 <= i < |list| ==> list[i].containerName == specs[i].containerName
      modifies podManager`samplePodStatus, this`signalled, this`jobs
      ensures podManager.samplePodStatus == before[pod.meta.uid := SampleRecord(pod, specs, now)]
      ensures signalled == old(signalled) + Snapshots(before, pod.meta.uid, SignalRecords(pod, specs, now))
      ensures jobs == old(jobs) + JobsFor(pod.meta.uid, list)
    {
      var uid := pod.meta.uid;
      for i := 0 to |list|
        invariant podManager.samplePodStatus == before[uid := SampleRecord(pod, specs[..i], now)]
        invariant signalled == old(signalled) + Snapshots(before, uid, SignalRecords(pod, specs[..i], now))
        invariant jobs == old(jobs) + JobsFor(uid, list[..i])
      {
        StartCommand(pod, now, list[i], specs, i, before);
        SnapshotsStep(before, pod, specs, i, now);
        AppendAssociates(old(signalled), Snapshots(before, uid, SignalRecords(pod, specs[..i], now)),
          Snapshots(before, uid, [CreatingSnapshot(pod, specs[..i], list[i].containerName, now), SampleRecord(pod, specs[..i + 1], now)]));
        assert list[..i + 1][..i] == list[..i];
        AppendAssociates(old(jobs), JobsFor(uid, list[..i]), [ScriptJob(uid, list[i])]);
      }
      assert specs[..|list|] == specs;
      assert list[..|list|] == list;
    }

    /** One iteration of the second loop: the record with the command's
        container Creating, a signal, the record with it Running, a signal,
        and the command's goroutine. */
    method StartCommand(pod: Kube.Pod, now: int, cmd: ContainerCmd, ghost specs: seq<CommandSpec>, ghost i: nat, ghost before: map<string, PodRecord>)
      requires i < |specs| && cmd.containerName == specs[i].containerName
      requires podManager.samplePodStatus == before[pod.meta.uid := SampleRecord(pod, specs[..i], now)]
      modifies podManager`samplePodStatus, this`signalled, this`jobs
      ensures podManager.samplePodStatus == before[pod.meta.uid := SampleRecord(pod, specs[..i + 1], now)]
      ensures signalled == old(signalled)
        + Snapshots(before, pod.meta.uid, [CreatingSnapshot(pod, specs[..i], cmd.containerName, now), SampleRecord(pod, specs[..i + 1], now)])
      ensures jobs == old(jobs) + [ScriptJob(pod.meta.uid, cmd)]
    {
      var uid, name := pod.meta.uid, cmd.containerName;
      assert specs[..i] + [specs[i]] == specs[..i + 1];
      SignalStep(before, pod, specs[..i], specs[i], now);
      var rec := podManager.samplePodStatus[uid];
      podManager.samplePodStatus := podManager.samplePodStatus[uid := rec.(containers := rec.containers[name := CreatingStatus(uid, name, now)])];
      signalled := signalled + [podManager.samplePodStatus];
      rec := podManager.samplePodStatus[uid];
      var creating := rec.containers[name];
      podManager.samplePodStatus := podManager.samplePodStatus[uid := rec.(containers := rec.containers[name := creating.(state := ContainerRunning, message := "Running")])];
      signalled := signalled + [podManager.samplePodStatus];
      jobs := jobs + [ScriptJob(uid, cmd)];
    }

    /** createSamplePod. */
    method CreateSamplePod(pod: Kube.Pod, now: int) returns (err: Option<Error>, ghost cmds: seq<ContainerCmd>)
      modifies podManager`samplePodStatus, this`signalled, this`jobs, this`notified
      ensures forall i :: 0 <= i < |cmds| ==> fresh(cmds[i])
      ensures SampleCreateEffect(pod, now, err, cmds)
    {
      var list := BuildCommands(pod.spec.containers);
      ghost var specs := CommandsFor(pod.spec.containers);
      ghost var before := podManager.samplePodStatus;
      podManager.samplePodStatus := podManager.samplePodStatus[pod.meta.uid := SampleRecord(pod, [], now)];
      signalled := signalled + [podManager.samplePodStatus];
      StartCommands(pod, now, list, specs, before);
      SnapshotsConcat(before, pod.meta.uid, [SampleRecord(pod, [], now)], SignalRecords(pod, specs, now));
      assert Snapshots(before, pod.meta.uid, [SampleRecord(pod, [], now)]) == [before[pod.meta.uid := SampleRecord(pod, [], now)]];
      AppendAssociates(old(signalled), Snapshots(before, pod.meta.uid, [SampleRecord(pod, [], now)]), Snapshots(before, pod.meta.uid, SignalRecords(pod, specs, now)));
      notified := notified + [pod];
      err := None;
      cmds := list;
    }

    /** The end of one container's goroutine: the command runs, then its
        record becomes EXITED. If the pod or the container is no longer in
        the script partition, the Go code dereferences nil and the process
        dies (`crashed`); nothing is recorded then. */
    method CompleteScriptJob(j: nat, outcome: ProcessOutcome) returns (crashed: bool)
      requires j < |jobs|
      modifies podManager`samplePodStatus, this`signalled, this`jobs, jobs[j].cmd
      ensures jobs == old(jobs[..j] + jobs[j + 1..])
      ensures var uid, name, before := old(jobs[j].uid), old(jobs[j].cmd.containerName), old(podManager.samplePodStatus);
        && (crashed <==> !(uid in before && name in before[uid].containers))
        && (crashed ==> podManager.samplePodStatus == before && signalled == old(signalled))
        && (!crashed ==>
              var rec := before[uid];
              && podManager.samplePodStatus == before[uid := rec.(containers := rec.containers[name := Finished(rec.containers[name], outcome)])]
              && signalled == old(signalled) + [podManager.samplePodStatus])
    ensures var cmd := old(jobs[j].cmd);
      && (outcome.err == None ==> cmd.exitCode == old(cmd.exitCode) && cmd.execError == old(cmd.execError))
      && (outcome.err.Some? && outcome.err.value.ExitError? ==>
            cmd.exitCode == outcome.err.value.code && cmd.execError == old(cmd.execError))
      && (outcome.err == Some(OtherError) ==> cmd.exitCode == OtherErrorExitCode && cmd.execError == Some(OtherError))
    {
      var job := jobs[j];
      var stdout, stderr, runErr := job.cmd.Run(outcome);
      jobs := jobs[..j] + jobs[j + 1..];
      var uid, name := job.uid, job.cmd.containerName;
      if uid !in podManager.samplePodStatus || name !in podManager.samplePodStatus[uid].containers {
        return true;
      }
      var rec := podManager.samplePodStatus[uid];
      var c := rec.containers[name];
      var finished := if runErr.Some? then c.(state := ContainerExited, reason := "Error", message := stderr, exitCode := OtherErrorExitCode)
                      else c.(state := ContainerExited, reason := "Completed", message := stdout, exitCode := 0);
      podManager.samplePodStatus := podManager.samplePodStatus[uid := rec.(containers := rec.containers[name := finished])];
      signalled := signalled + [podManager.samplePodStatus];
      crashed := false;
    }

    twostate predicate SampleDeleteEffect(pod: Kube.Pod, new err: Option<Error>, new retired: Option<PodRecord>)
      reads this, podManager
    {
      var uid := pod.meta.uid;
      var before := old(podManager.samplePodStatus);
      && (uid !in before ==> err == Some(NotFound) && podManager.samplePodStatus == before && notified == old(notified) && retired.None?)
      && (uid in before ==>
            && err.None?
            && podManager.samplePodStatus == before - {uid}
            && notified == old(notified) + [pod]
            && retired == Some(MarkTerminated(before[uid])))
    }

    /** deleteSamplePod: the record is marked terminated (the result is
        `retired`), removed from the script partition, and notified. */
    method DeleteSamplePod(pod: Kube.Pod) returns (err: Option<Error>, ghost retired: Option<PodRecord>)
      modifies podManager`samplePodStatus, this`notified
      ensures SampleDeleteEffect(pod, err, retired)
    {
      retired := None;
      var uid := pod.meta.uid;
      if uid !in podManager.samplePodStatus {
        return Some(NotFound), None;
      }
      var ps := podManager.samplePodStatus[uid];
      var marked := ps.containers;
      var order := MapOrder(ps.containers);
      for i := 0 to |order|
        invariant marked.Keys == ps.containers.Keys
        invariant forall n :: n in order[..i] ==> marked[n] == ps.containers[n].(state := ContainerExited)
        invariant forall n :: n in marked && n !in order[..i] ==> marked[n] == ps.containers[n]
      {
        assert order[..i + 1] == order[..i] + [order[i]];
        marked := marked[order[i] := marked[order[i]].(state := ContainerExited)];
      }
      assert forall n :: n in ps.containers ==> n in order[..|order|];
      assert marked == MarkTerminated(ps).containers;
      retired := Some(PodRecord(ps.id, marked, ps.status.(state := SandboxNotReady)));
      podManager.samplePodStatus := podManager.samplePodStatus - {uid};
      notified := notified + [pod];
      err := None;
    }

    // -------------------------------------------------------------------
    // Entry points (pkg/providers/provider.go).

    /** CreatePod: the script path for a "bash" pod, the runtime path
        otherwise; the other path's state is untouched. */
    method CreatePod(pod: Kube.Pod, now: int) returns (err: Option<Error>, ghost existing: Option<PodRecord>, ghost cmds: seq<ContainerCmd>)
      modifies this`podStatus, rt`log, disk`log, podManager`samplePodStatus, this`signalled, this`jobs, this`notified
      ensures forall i :: 0 <= i < |cmds| ==> fresh(cmds[i])
      ensures IsScriptPod(pod) ==>
        && SampleCreateEffect(pod, now, err, cmds)
        && podStatus == old(podStatus) && rt.log == old(rt.log) && disk.log == old(disk.log)
      ensures !IsScriptPod(pod) ==>
        && RuntimeCreateEffect(pod, err, existing) && cmds == []
        && podManager.samplePodStatus == old(podManager.samplePodStatus)
        && signalled == old(signalled) && jobs == old(jobs) && notified == old(notified)
    {
      existing, cmds := None, [];
      if IsScriptPod(pod) {
        err, cmds := CreateSamplePod(pod, now);
        return;
      }
      err, existing := CreateRuntimePod(pod);
    }

    /** DeletePod: routed by the same rule as CreatePod. */
    method DeletePod(pod: Kube.Pod) returns (err: Option<Error>, ghost retired: Option<PodRecord>)
      modifies this`podStatus, this`notified, rt`log, disk`log, podManager`samplePodStatus
      ensures IsScriptPod(pod) ==>
        SampleDeleteEffect(pod, err, retired) && podStatus == old(podStatus) && rt.log == old(rt.log) && disk.log == old(disk.log)
      ensures !IsScriptPod(pod) ==>
        RuntimeDeleteEffect(pod, err) && retired.None? && podManager.samplePodStatus == old(podManager.samplePodStatus)
    {
      retired := None;
      if IsScriptPod(pod) {
        err, retired := DeleteSamplePod(pod);
        return;
      }
      err := DeleteRuntimePod(pod);
    }

    /** UpdatePod accepts every pod and changes nothing. */
    method UpdatePod(pod: Kube.Pod) returns (err: Option<Error>)
      ensures err.None?
    {
      err := None;
    }

    /** GetContainerLogs answers no log and no error. */
    method GetContainerLogs(namespace: string, podName: string, containerName: string) returns (logs: Option<string>, err: Option<Error>)
      ensures logs.None? && err.None?
    {
      logs, err := None, None;
    }

    /** RunInContainer runs nothing and answers no error. */
    method RunInContainer(namespace: string, podName: string, containerName: string, cmd: seq<string>) returns (err: Option<Error>)
      ensures err.None?
    {
      err := None;
    }

    /** ConfigureNode fills five parts of the node status from the options;
        everything else in the node is left as it was. */
    method ConfigureNode(node: Kube.Node, numCpu: nat, now: int)
      modifies node
      ensures node.name == old(node.name)
      ensures node.status == old(node.status).(
        capacity := NodeConfig.NodeCapacity(options.resourceCpu, options.resourceMemory, options.maxPod, numCpu),
        conditions := NodeConfig.NodeConditions(now),
        addresses := NodeConfig.NodeAddresses(options.internalIp),
        daemonEndpoints := NodeConfig.NodeDaemonEndpoints(options.daemonEndpointPort),
        nodeInfo := old(node.status.nodeInfo).(operatingSystem := options.operatingSystem))
    {
      node.status := node.status.(capacity := NodeConfig.NodeCapacity(options.resourceCpu, options.resourceMemory, options.maxPod, numCpu));
      node.status := node.status.(conditions := NodeConfig.NodeConditions(now));
      node.status := node.status.(addresses := NodeConfig.NodeAddresses(options.internalIp));
      node.status := node.status.(daemonEndpoints := NodeConfig.NodeDaemonEndpoints(options.daemonEndpointPort));
      node.status := node.status.(nodeInfo := node.status.nodeInfo.(operatingSystem := options.operatingSystem));
    }
  }
}
