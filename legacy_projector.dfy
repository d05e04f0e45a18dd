/** The projector copy in pkg/providers/mycri.go:367-475. It reads
    `c.Image.Image` and `p.status.Network.Ip` without the nil guards of
    pkg/providers/util.go, so a cached container without an image record,
    or a sandbox without a network record, makes the Go code panic. Here a
    panic is the answer None. The state map of lines 423-453 is identical
    to util.go's and is Projector.ContainerStateFromCri. */
module LegacyProjector {
  import opened Common
  import Cri
  import Kube
  import Projector
  import opened Manager

  /** One iteration of createContainerSpecsFromCRI (mycri.go:398-419). */
  function LegacyContainerEntry(c: Cri.ContainerStatus): (r: Option<(Kube.Container, Kube.ContainerStatus)>)
    ensures r.None? <==> c.image.None?
    ensures r.Some? ==> r.value == (Projector.ContainerOf(c), Projector.ContainerStatusOf(c))
  {
    match c.image
    case None => None
    case Some(image) =>
      var container := Kube.Container(c.metadata.name, image.image, [], [], "", false, false, false);
      var status := Kube.ContainerStatus(
        c.metadata.name, image.image, c.imageRef, c.id,
        c.state == Cri.ContainerRunning, Projector.ContainerStateFromCri(c.state, c));
      Some((container, status))
  }

  /** The cached containers in the order a map walk visits them. */
  function InOrder(m: map<string, Cri.ContainerStatus>, order: seq<string>): (cs: seq<Cri.ContainerStatus>)
    requires forall i :: 0 <= i < |order| ==> order[i] in m
    ensures |cs| == |order| && forall i :: 0 <= i < |order| ==> cs[i] == m[order[i]]
  {
    seq(|order|, i requires 0 <= i < |order| => m[order[i]])
  }

  /** createContainerSpecsFromCRI of mycri.go over the visited containers:
      None (a panic) as soon as one lacks an image record. */
  function LegacyContainerSpecs(cs: seq<Cri.ContainerStatus>): (r: Option<(seq<Kube.Container>, seq<Kube.ContainerStatus>)>)
    ensures r.None? <==> exists i :: 0 <= i < |cs| && cs[i].image.None?
    ensures r.Some? ==> |r.value.0| == |cs| && |r.value.1| == |cs|
    ensures r.Some? ==> forall i :: 0 <= i < |cs| ==>
      r.value.0[i] == Projector.ContainerOf(cs[i]) && r.value.1[i] == Projector.ContainerStatusOf(cs[i])
    decreases |cs|
  {
    if cs == [] then Some(([], []))
    else
      match LegacyContainerSpecs(cs[..|cs| - 1])
      case None => None
      case Some(prev) =>
        match LegacyContainerEntry(cs[|cs| - 1])
        case None => None
        case Some(entry) => Some((prev.0 + [entry.0], prev.1 + [entry.1]))
  }

  /** The same loop as the source writes it, ending in a panic at the first
      container without an image record. */
  method LegacyCreateContainerSpecsFromCri(m: map<string, Cri.ContainerStatus>, order: seq<string>)
    returns (containers: seq<Kube.Container>, statuses: seq<Kube.ContainerStatus>, panicked: bool)
    requires Enumerates(order, m.Keys)
    ensures panicked <==> LegacyContainerSpecs(InOrder(m, order)).None?
    ensures !panicked ==> (containers, statuses) == LegacyContainerSpecs(InOrder(m, order)).value
  {
    ghost var cs := InOrder(m, order);
    containers, statuses, panicked := [], [], false;
    var i := 0;
    while i < |order|
      invariant 0 <= i <= |order|
      invariant LegacyContainerSpecs(cs[..i]) == Some((containers, statuses))
    {
      assert cs[..i + 1][..i] == cs[..i];
      var c := m[order[i]];
      var entry := LegacyContainerEntry(c);
      if entry.None? {
        panicked := true;
        assert cs[i].image.None?;
        return;
      }
      containers := containers + [entry.value.0];
      statuses := statuses + [entry.value.1];
      i := i + 1;
    }
    assert cs[..i] == cs;
  }

  /** A record the mycri.go projector cannot render without a panic. */
  predicate Panics(p: PodRecord) {
    p.status.network.None? || exists k :: k in p.containers && p.containers[k].image.None?
  }

  /** createPodStatusFromCRI of mycri.go (lines 456-475). */
  function LegacyPodStatusFromCri(p: PodRecord, order: seq<string>): (r: Option<Kube.PodStatus>)
    requires Enumerates(order, p.containers.Keys)
    ensures r.None? <==> p.status.network.None? || LegacyContainerSpecs(InOrder(p.containers, order)).None?
    ensures r.Some? ==>
      && (r.value.phase == Kube.PodRunning <==> p.status.state == Cri.SandboxReady)
      && r.value.podIp == p.status.network.value.ip
      && r.value.startTime == Some(p.status.createdAt)
      && r.value.containerStatuses == LegacyContainerSpecs(InOrder(p.containers, order)).value.1
  {
    match LegacyContainerSpecs(InOrder(p.containers, order))
    case None => None
    case Some(specs) =>
      var phase := if p.status.state == Cri.SandboxReady then Kube.PodRunning else Kube.PodPending;
      match p.status.network
      case None => None
      case Some(network) =>
        Some(Kube.PodStatus(phase, "", "", "", network.ip, Some(p.status.createdAt), specs.1))
  }

  /** createPodSpecFromCRI of mycri.go (lines 367-392): the container walk
      for the declarations, then the status. */
  function LegacyPodSpecFromCri(p: PodRecord, nodeName: string, specOrder: seq<string>, statusOrder: seq<string>): (r: Option<Kube.Pod>)
    requires Enumerates(specOrder, p.containers.Keys)
    requires Enumerates(statusOrder, p.containers.Keys)
    ensures r.None? <==>
      LegacyContainerSpecs(InOrder(p.containers, specOrder)).None? || LegacyPodStatusFromCri(p, statusOrder).None?
    ensures r.Some? ==>
      && r.value.meta.name == p.status.metadata.name && r.value.meta.namespace == p.status.metadata.namespace
      && r.value.meta.uid == p.status.metadata.uid && r.value.spec.nodeName == nodeName
      && r.value.spec.containers == LegacyContainerSpecs(InOrder(p.containers, specOrder)).value.0
      && r.value.status == LegacyPodStatusFromCri(p, statusOrder).value
  {
    match LegacyContainerSpecs(InOrder(p.containers, specOrder))
    case None => None
    case Some(specs) =>
      match LegacyPodStatusFromCri(p, statusOrder)
      case None => None
      case Some(status) =>
        Some(Kube.Pod(
          "Pod", "v1",
          Kube.ObjectMeta(p.status.metadata.name, p.status.metadata.namespace, p.status.metadata.uid, None, p.status.createdAt),
          Kube.PodSpec(nodeName, [], specs.0),
          status))
  }

  /** Some visited container lacks an image exactly when some cached one
      does. */
  lemma InOrderLacksImage(m: map<string, Cri.ContainerStatus>, order: seq<string>)
    requires Enumerates(order, m.Keys)
    ensures (exists i :: 0 <= i < |order| && InOrder(m, order)[i].image.None?)
        <==> (exists k :: k in m && m[k].image.None?)
  {
    var cs := InOrder(m, order);
    if exists k :: k in m && m[k].image.None? {
      var k :| k in m && m[k].image.None?;
      var i :| 0 <= i < |order| && order[i] == k;
      assert cs[i].image.None?;
    }
  }

  /** The two projectors agree on the records the unguarded one can render,
      and the unguarded one panics on exactly the others. */
  lemma LegacyPodStatusAgrees(p: PodRecord, order: seq<string>)
    requires Enumerates(order, p.containers.Keys)
    ensures LegacyPodStatusFromCri(p, order).None? <==> Panics(p)
    ensures !Panics(p) ==> LegacyPodStatusFromCri(p, order) == Some(Projector.PodStatusFromCri(p, order))
  {
    InOrderLacksImage(p.containers, order);
    var specs := LegacyContainerSpecs(InOrder(p.containers, order));
    if specs.Some? {
      assert specs.value.1 == Projector.ContainerSpecs(p.containers, order).1;
    }
  }

  lemma LegacyPodSpecAgrees(p: PodRecord, nodeName: string, specOrder: seq<string>, statusOrder: seq<string>)
    requires Enumerates(specOrder, p.containers.Keys)
    requires Enumerates(statusOrder, p.containers.Keys)
    ensures LegacyPodSpecFromCri(p, nodeName, specOrder, statusOrder).None? <==> Panics(p)
    ensures !Panics(p) ==> LegacyPodSpecFromCri(p, nodeName, specOrder, statusOrder) == Some(Projector.PodSpecFromCri(p, nodeName, specOrder, statusOrder))
  {
    InOrderLacksImage(p.containers, specOrder);
    LegacyPodStatusAgrees(p, statusOrder);
    var specs := LegacyContainerSpecs(InOrder(p.containers, specOrder));
    if specs.Some? {
      assert specs.value.0 == Projector.ContainerSpecs(p.containers, specOrder).0;
    }
  }

  /** `q` is one of the pods the mycri.go projector may render for `p`,
      depending on the two map walks. */
  ghost predicate RendersAs(p: PodRecord, nodeName: string, q: Kube.Pod) {
    exists specOrder, statusOrder ::
      && Enumerates(specOrder, p.containers.Keys)
      && Enumerates(statusOrder, p.containers.Keys)
      && LegacyPodSpecFromCri(p, nodeName, specOrder, statusOrder) == Some(q)
  }

  ghost predicate RendersStatusAs(p: PodRecord, s: Kube.PodStatus) {
    exists order :: Enumerates(order, p.containers.Keys) && LegacyPodStatusFromCri(p, order) == Some(s)
  }

  /** `pods` is a possible answer of GetPods for the cache: one rendering
      per cached record, in some map-walk order. */
  ghost predicate ListsAll(cache: map<string, PodRecord>, nodeName: string, pods: seq<Kube.Pod>) {
    exists order ::
      && Enumerates(order, cache.Keys)
      && |pods| == |order|
      && forall j :: 0 <= j < |order| ==> RendersAs(cache[order[j]], nodeName, pods[j])
  }

  /** Whatever the map walks, a rendered pod carries its sandbox's name,
      namespace and UID, runs on the node, and is Running exactly when its
      sandbox is ready; it declares one container per cached container. */
  lemma RenderedPodKeepsIdentity(p: PodRecord, nodeName: string, q: Kube.Pod)
    requires RendersAs(p, nodeName, q)
    ensures q.meta.name == p.status.metadata.name && q.meta.namespace == p.status.metadata.namespace
    ensures q.meta.uid == p.status.metadata.uid && q.spec.nodeName == nodeName
    ensures q.status.phase == Kube.PodRunning <==> p.status.state == Cri.SandboxReady
    ensures |q.spec.containers| == |p.containers| && |q.status.containerStatuses| == |p.containers|
    ensures !Panics(p)
  {
    var specOrder, statusOrder :|
      && Enumerates(specOrder, p.containers.Keys)
      && Enumerates(statusOrder, p.containers.Keys)
      && LegacyPodSpecFromCri(p, nodeName, specOrder, statusOrder) == Some(q);
    LegacyPodSpecAgrees(p, nodeName, specOrder, statusOrder);
  }

  /** The walk order behind a listing, along which the j-th pod carries
      the UID of the j-th visited record. */
  lemma ListingOrder(cache: map<string, PodRecord>, nodeName: string, pods: seq<Kube.Pod>) returns (order: seq<string>)
    requires ListsAll(cache, nodeName, pods)
    ensures Enumerates(order, cache.Keys) && |pods| == |order|
    ensures forall j :: 0 <= j < |order| ==> pods[j].meta.uid == cache[order[j]].status.metadata.uid
  {
    order :|
      && Enumerates(order, cache.Keys)
      && |pods| == |order|
      && forall j :: 0 <= j < |order| ==> RendersAs(cache[order[j]], nodeName, pods[j]);
    forall j | 0 <= j < |order| ensures pods[j].meta.uid == cache[order[j]].status.metadata.uid {
      RenderedPodKeepsIdentity(cache[order[j]], nodeName, pods[j]);
    }
  }

  function PodUids(pods: seq<Kube.Pod>): set<string> {
    set p | p in pods :: p.meta.uid
  }

  function CachedUids(cache: map<string, PodRecord>): set<string> {
    set k | k in cache :: cache[k].status.metadata.uid
  }

  /** Pods paired with a walk order of the cache by UID carry exactly the
      cached UIDs, one pod per record. */
  lemma PairedByOrder(cache: map<string, PodRecord>, pods: seq<Kube.Pod>, order: seq<string>)
    requires Enumerates(order, cache.Keys) && |pods| == |order|
    requires forall j :: 0 <= j < |order| ==> pods[j].meta.uid == cache[order[j]].status.metadata.uid
    ensures |pods| == |cache| && PodUids(pods) == CachedUids(cache)
  {
    EnumerationLength(order, cache.Keys);
    forall u | u in PodUids(pods) ensures u in CachedUids(cache) {
      var j :| 0 <= j < |pods| && pods[j].meta.uid == u;
      assert order[j] in cache;
    }
    forall u | u in CachedUids(cache) ensures u in PodUids(pods) {
      var k :| k in cache && cache[k].status.metadata.uid == u;
      assert k in order;
      var j :| 0 <= j < |order| && order[j] == k;
      assert pods[j] in pods;
    }
  }

  /** Every pod of a listing is some cached record's rendering, and every
      cached record is rendered once: the listing has one pod per record
      and the same UIDs. */
  lemma ListingCoversCache(cache: map<string, PodRecord>, nodeName: string, pods: seq<Kube.Pod>)
    requires ListsAll(cache, nodeName, pods)
    ensures |pods| == |cache| && PodUids(pods) == CachedUids(cache)
  {
    var order := ListingOrder(cache, nodeName, pods);
    PairedByOrder(cache, pods, order);
  }
}
