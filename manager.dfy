/** The pod state cache (pkg/providers/manager.go): one record per pod and
    the manager holding the two partitions, runtime-backed pods and
    script-backed pods. */
module Manager {
  import Cri

  /** A cached pod: its sandbox id, the sandbox status, and the status of
      each container keyed by container name. mycri.go's CRIPod has the same
      three fields and is modelled by this type too. */
  datatype PodRecord = PodRecord(
    id: string,
    containers: map<string, Cri.ContainerStatus>,
    status: Cri.PodSandboxStatus)

  class PodManager {
    /** runtime-backed pods, keyed by pod UID */
    var podStatus: map<string, PodRecord>
    /** script-backed pods, keyed by pod UID */
    var samplePodStatus: map<string, PodRecord>

    /** NewPodManager: both partitions start empty. */
    constructor ()
      ensures podStatus == map[] && samplePodStatus == map[]
    {
      podStatus := map[];
      samplePodStatus := map[];
    }

    method GetPodStatus() returns (m: map<string, PodRecord>)
      ensures m == podStatus
    {
      m := podStatus;
    }

    method GetSamplePodStatus() returns (m: map<string, PodRecord>)
      ensures m == samplePodStatus
    {
      m := samplePodStatus;
    }
  }
}
