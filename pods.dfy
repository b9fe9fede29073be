/** Pod metrics: per-pod derivation of usage, requests, limits and status for GET /pods. */
module Pods {
  import opened Wrappers
  import opened GoInt
  import opened Nodes

  /**
   * A container's resource list, by its integer readings: the CPU quantity in millicores and
   * the memory quantity in bytes, None when the entry is absent. The library's `Cpu()` and
   * `Memory()` never return nil; an absent entry reads as a zero quantity.
   */
  datatype ResourceList = ResourceList(cpuMilli: Option<int>, memoryBytes: Option<int>)

  datatype Container = Container(requests: ResourceList, limits: ResourceList)
  datatype ContainerStatus = ContainerStatus(restartCount: int)

  /** The fields of a core/v1 Pod the code reads; the start time is given by its RFC 3339 text. */
  datatype Pod = Pod(
    name: string,
    namespace: string,
    nodeName: string,
    phase: string,
    containers: seq<Container>,
    containerStatuses: seq<ContainerStatus>,
    startTime: Option<string>)

  /** The API's pod entry; the percentage pointers become the operands of the percentage, when present. */
  datatype PodMetrics = PodMetrics(
    podName: string,
    namespace: string,
    nodeName: string,
    status: string,
    startTime: string,
    cpuUsage: int,
    cpuUsagePercent: Option<Ratio>,
    cpuUsageLimit: int,
    cpuUsageRequest: int,
    memoryUsage: int,
    memoryUsagePercent: Option<Ratio>,
    memoryUsageLimit: int,
    memoryUsageRequest: int,
    restartCount: int)

  datatype UsageError = PromFailed(cause: string) | NoCpuData(pod: string) | NoMemoryData(pod: string)

  /** A usage helper's two results. */
  datatype Usage = Usage(value: int, err: Option<UsageError>)

  function PodCpuQuery(namespace: string, pod: string): string {
    "sum(rate(container_cpu_usage_seconds_total{namespace=\"" + namespace + "\", pod=\"" + pod + "\"}[5m])) * 1000"
  }

  function PodMemoryQuery(namespace: string, pod: string): string {
    "container_memory_working_set_bytes{namespace=\"" + namespace + "\", pod=\"" + pod + "\"}"
  }

  /** getPodCPUUsage: the first sample of a non-empty vector; otherwise 0 and an error. */
  function PodCpuUsage(namespace: string, pod: string, prometheus: string -> QueryReply): (u: Usage)
    ensures u.err.None? <==> prometheus(PodCpuQuery(namespace, pod)).QueryOk?
                             && prometheus(PodCpuQuery(namespace, pod)).value.Vector?
                             && |prometheus(PodCpuQuery(namespace, pod)).value.samples| > 0
    ensures u.err.None? ==> u.value == prometheus(PodCpuQuery(namespace, pod)).value.samples[0]
    ensures u.err.Some? ==> u.value == 0
  {
    match prometheus(PodCpuQuery(namespace, pod))
    case QueryErr(cause) => Usage(0, Some(PromFailed(cause)))
    case QueryOk(value) =>
      if value.Vector? && |value.samples| > 0 then Usage(value.samples[0], None)
      else Usage(0, Some(NoCpuData(pod)))
  }

  /** getPodMemoryUsage: the first sample of a non-empty vector in MiB; otherwise 0 and an error. */
  function PodMemoryUsage(namespace: string, pod: string, prometheus: string -> QueryReply): (u: Usage)
    ensures u.err.None? <==> prometheus(PodMemoryQuery(namespace, pod)).QueryOk?
                             && prometheus(PodMemoryQuery(namespace, pod)).value.Vector?
                             && |prometheus(PodMemoryQuery(namespace, pod)).value.samples| > 0
    ensures u.err.None? ==> u.value == MiB(prometheus(PodMemoryQuery(namespace, pod)).value.samples[0])
    ensures u.err.Some? ==> u.value == 0
  {
    match prometheus(PodMemoryQuery(namespace, pod))
    case QueryErr(cause) => Usage(0, Some(PromFailed(cause)))
    case QueryOk(value) =>
      if value.Vector? && |value.samples| > 0 then Usage(MiB(value.samples[0]), None)
      else Usage(0, Some(NoMemoryData(pod)))
  }

  /** The first container's reading of a resource, 0 when the pod has no containers or the entry is absent. */
  function FirstContainer(pod: Pod, read: Container -> Option<int>): (r: int)
    ensures pod.containers == [] ==> r == 0
    ensures pod.containers != [] ==> r == read(pod.containers[0]).GetOr(0)
  {
    if |pod.containers| > 0 then read(pod.containers[0]).GetOr(0) else 0
  }

  /**
   * The entry GetPods builds for one pod: usage from the two helpers (0 when they fail),
   * requests and limits from the first container, memory in MiB, a percentage only where the
   * limit is positive, the first container status's restart count, and "" without a start time.
   */
  function PodEntry(namespace: string, pod: Pod, prometheus: string -> QueryReply): (r: PodMetrics)
    ensures r.podName == pod.name && r.namespace == pod.namespace && r.nodeName == pod.nodeName && r.status == pod.phase
    ensures r.cpuUsage == PodCpuUsage(namespace, pod.name, prometheus).value
    ensures r.memoryUsage == PodMemoryUsage(namespace, pod.name, prometheus).value
    ensures r.cpuUsageRequest == FirstContainer(pod, (c: Container) => c.requests.cpuMilli)
    ensures r.cpuUsageLimit == FirstContainer(pod, (c: Container) => c.limits.cpuMilli)
    ensures r.memoryUsageRequest == MiB(FirstContainer(pod, (c: Container) => c.requests.memoryBytes))
    ensures r.memoryUsageLimit == MiB(FirstContainer(pod, (c: Container) => c.limits.memoryBytes))
    ensures r.cpuUsagePercent.Some? <==> r.cpuUsageLimit > 0
    ensures r.cpuUsagePercent.Some? ==> r.cpuUsagePercent.value == Ratio(r.cpuUsage, r.cpuUsageLimit)
    ensures r.memoryUsagePercent.Some? <==> r.memoryUsageLimit > 0
    ensures r.memoryUsagePercent.Some? ==> r.memoryUsagePercent.value == Ratio(r.memoryUsage, r.memoryUsageLimit)
    ensures r.restartCount == if pod.containerStatuses == [] then 0 else pod.containerStatuses[0].restartCount
    ensures r.startTime == pod.startTime.GetOr("")
  {
    var cpuUsage := PodCpuUsage(namespace, pod.name, prometheus).value;
    var memoryUsage := PodMemoryUsage(namespace, pod.name, prometheus).value;
    var cpuRequest := FirstContainer(pod, (c: Container) => c.requests.cpuMilli);
    var cpuLimit := FirstContainer(pod, (c: Container) => c.limits.cpuMilli);
    var memoryRequest := MiB(FirstContainer(pod, (c: Container) => c.requests.memoryBytes));
    var memoryLimit := MiB(FirstContainer(pod, (c: Container) => c.limits.memoryBytes));
    PodMetrics(pod.name, pod.namespace, pod.nodeName, pod.phase, pod.startTime.GetOr(""),
               cpuUsage, if cpuLimit > 0 then Some(Ratio(cpuUsage, cpuLimit)) else None, cpuLimit, cpuRequest,
               memoryUsage, if memoryLimit > 0 then Some(Ratio(memoryUsage, memoryLimit)) else None, memoryLimit, memoryRequest,
               if |pod.containerStatuses| > 0 then pod.containerStatuses[0].restartCount else 0)
  }

  /** GetPods: a pod-list error is returned; otherwise one entry per listed pod, in list order. */
  method GetPods(namespace: string, podList: Result<seq<Pod>, string>, prometheus: string -> QueryReply)
    returns (r: Result<seq<PodMetrics>, string>)
    ensures podList.Failure? ==> r == Failure(podList.error)
    ensures podList.Success? ==> r.Success? && |r.value| == |podList.value|
    ensures podList.Success? ==> forall i :: 0 <= i < |podList.value| ==> r.value[i] == PodEntry(namespace, podList.value[i], prometheus)
  {
    if podList.Failure? {
      return Failure(podList.error);
    }
    var pods := podList.value;
    var result: seq<PodMetrics> := [];
    for i := 0 to |pods|
      invariant |result| == i
      invariant forall k :: 0 <= k < i ==> result[k] == PodEntry(namespace, pods[k], prometheus)
    {
      var pod := pods[i];
      var cpuUsage := 0;
      var memoryUsage := 0;
      var cpuUsagePercent: Option<Ratio> := None;
      var memoryUsagePercent: Option<Ratio> := None;

      var cpu := PodCpuUsage(namespace, pod.name, prometheus);
      cpuUsage := cpu.value;        // an error is only logged
      var memory := PodMemoryUsage(namespace, pod.name, prometheus);
      memoryUsage := memory.value;  // an error is only logged

      var cpuRequest, cpuLimit, memoryRequest, memoryLimit := 0, 0, 0, 0;
      if |pod.containers| > 0 {
        var container := pod.containers[0];
        cpuRequest := container.requests.cpuMilli.GetOr(0);
        cpuLimit := container.limits.cpuMilli.GetOr(0);
        memoryRequest := Quot(Quot(container.requests.memoryBytes.GetOr(0), 1024), 1024);
        memoryLimit := Quot(Quot(container.limits.memoryBytes.GetOr(0), 1024), 1024);
      }

      if cpuLimit > 0 {
        cpuUsagePercent := Some(Ratio(cpuUsage, cpuLimit));
      }
      if memoryLimit > 0 {
        memoryUsagePercent := Some(Ratio(memoryUsage, memoryLimit));
      }

      var restartCount := 0;
      if |pod.containerStatuses| > 0 {
        restartCount := pod.containerStatuses[0].restartCount;
      }

      var startTime := "";
      if pod.startTime.Some? {
        startTime := pod.startTime.value;
      }

      result := result + [PodMetrics(pod.name, pod.namespace, pod.nodeName, pod.phase, startTime,
                                     cpuUsage, cpuUsagePercent, cpuLimit, cpuRequest,
                                     memoryUsage, memoryUsagePercent, memoryLimit, memoryRequest, restartCount)];
    }
    return Success(result);
  }

  /** A failed usage query never drops the pod: its entry is there, with usage 0. */
  lemma FailedUsageShowsZero(namespace: string, pod: Pod, prometheus: string -> QueryReply)
    requires prometheus(PodCpuQuery(namespace, pod.name)).QueryErr?
    requires prometheus(PodMemoryQuery(namespace, pod.name)).QueryErr?
    ensures PodEntry(namespace, pod, prometheus).cpuUsage == 0
    ensures PodEntry(namespace, pod, prometheus).memoryUsage == 0
    ensures PodEntry(namespace, pod, prometheus).podName == pod.name
  {
  }

  /** A pod without containers has all requests and limits 0 and no percentages. */
  lemma NoContainersNoLimits(namespace: string, pod: Pod, prometheus: string -> QueryReply)
    requires pod.containers == []
    ensures var e := PodEntry(namespace, pod, prometheus);
            e.cpuUsageRequest == 0 && e.cpuUsageLimit == 0 && e.memoryUsageRequest == 0 && e.memoryUsageLimit == 0
            && e.cpuUsagePercent.None? && e.memoryUsagePercent.None?
  {
    assert MiB(0) == 0;
  }

  /** A memory limit under 1 MiB truncates to 0, so a positive limit below 1 MiB gives no memory percentage. */
  lemma SubMebibyteLimitHasNoPercent(namespace: string, pod: Pod, prometheus: string -> QueryReply)
    requires pod.containers != [] && pod.containers[0].limits.memoryBytes.Some?
    requires 0 <= pod.containers[0].limits.memoryBytes.value < 1048576
    ensures PodEntry(namespace, pod, prometheus).memoryUsagePercent.None?
  {
    MiBOfNonNegative(pod.containers[0].limits.memoryBytes.value);
  }
}
