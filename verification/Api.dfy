/** The ShadowWorkload resource: what its author declares and what the controller reports back. */
module Api {
  import opened Wrappers
  import DestinationPolicy

  /** A Kubernetes quantity as an exact count of 10^-9 units, the finest grain a quantity can hold. */
  type Quantity = int

  /** CPU in nanocores, memory in nanobytes. */
  datatype Pair = Pair(cpu: Quantity, memory: Quantity)

  datatype SourceType = Docker | PromQL | Cgroup | Systemd | Unsupported(name: string)

  datatype DockerSource = DockerSource(cadvisorJob: string, cadvisorInstance: string)

  datatype PromQLSource = PromQLSource(cpuCores: string, memoryBytes: string)

  datatype CgroupSource = CgroupSource(path: string, cadvisorJob: string, cadvisorInstance: string)

  datatype SystemdSource = SystemdSource(unit: string, cadvisorJob: string, cadvisorInstance: string)

  /** One block per type; admission sets exactly the block that `kind` names, the code re-checks it. */
  datatype Source = Source(kind: SourceType, docker: Option<DockerSource>, promql: Option<PromQLSource>,
                           cgroup: Option<CgroupSource>, systemd: Option<SystemdSource>)

  datatype MetricsConfig = MetricsConfig(prometheusURL: DestinationPolicy.Url, window: string)

  /** `pollInterval` is the parsed duration in nanoseconds, None when it does not parse. */
  datatype UpdatePolicy = UpdatePolicy(threshold: int, pollInterval: Option<int>, floor: Pair, ceiling: Pair)

  datatype Spec = Spec(node: string, source: Source, metrics: MetricsConfig, update: UpdatePolicy)

  /** The admission rules on the update policy: bounds are non-negative and ordered, the threshold is a percentage. */
  predicate Admitted(spec: Spec) {
    && 0 <= spec.update.floor.cpu <= spec.update.ceiling.cpu
    && 0 <= spec.update.floor.memory <= spec.update.ceiling.memory
    && 0 <= spec.update.threshold <= 100
  }

  /** What `status.resolvedSource` holds. */
  datatype Description = Description(kind: SourceType, cgroupPath: string, cadvisorJob: string,
                                     cadvisorInstance: string)

  // ----- Status --------------------------------------------------------------------------

  datatype Reason =
    | WithinThreshold | PhantomCreated | Resized | AsExpected
    | NodeMissing | NodeNotReady | NodeTerminating | PriorityClassMissing
    | SourceInvalid | PrometheusUnavailable | CadvisorTargetUnavailable
    | ResizeRejected | PhantomConflict | PhantomRecreating

  datatype Condition = Condition(status: bool, reason: Reason, observedGeneration: nat)

  /** `status.lastMeasurement`; its time, as every time in a status, is in whole seconds. */
  datatype Snapshot = Snapshot(observedGeneration: nat, at: int, measured: Pair, seriesFound: bool)

  /** `current` holds `currentCPU` and `currentMemory`; they are zero, and `phantomPod` is empty, until they are set. */
  datatype Status = Status(phantomPod: string, current: Pair, lastResize: Option<int>,
                           lastMeasurement: Option<Snapshot>, resolvedSource: Option<Description>,
                           ready: Option<Condition>, degraded: Option<Condition>)

  /** The status of a ShadowWorkload that no pass has reported on. */
  const BLANK: Status := Status("", Pair(0, 0), None, None, None, None, None)

  datatype Workload = Workload(namespace: string, name: string, uid: nat, generation: nat, spec: Spec, status: Status)

  // ----- Pods ----------------------------------------------------------------------------

  datatype Resource = Cpu | Memory

  type ResourceList = map<Resource, Quantity>

  datatype Container = Container(requests: ResourceList, limits: ResourceList)

  /** A controller owner reference. */
  datatype Owner = Owner(name: string, uid: nat, kind: string, apiVersion: string)

  /** `managed` says whether the managed-by label is on the pod, which is what makes it visible to the cache. */
  datatype Pod = Pod(uid: nat, resourceVersion: nat, owner: Option<Owner>, managed: bool, node: string,
                     containers: seq<Container>)
}
