/** The per-node resource resolver: for one node and one resource name, the
    pair (allocatable, cost). Two paths exist: a static one that reads only the
    node snapshot's requests, and a telemetry one that prefers the usage the
    metrics server measured for CPU and memory. */
module Resolver {
  import opened Kube

  datatype ValuePair = ValuePair(allocatable: Int64, cost: Int64)

  /** The outcome of asking the metrics server for the node's usage: an error,
      or the measured CPU (millicores) and memory (bytes). */
  datatype MetricsQuery = QueryFailed | NodeUsage(cpuMilli: Int64, memoryBytes: Int64)

  /** The static path: capacity from the node's allocatable record, cost from
      the non-zero requests of its pods (the bound pod count for pods). */
  function AllocatableRequest(info: NodeInfo, resource: ResourceName, isScalar: ResourceName -> bool): (r: ValuePair)
    ensures r.allocatable == Amount(info.allocatable, resource, isScalar)
    ensures resource == ResourcePods ==> r.cost == info.podCount
    ensures resource != ResourcePods ==> r.cost == Amount(info.nonZeroRequested, resource, isScalar)
  {
    if resource == ResourceCPU then
      ValuePair(info.allocatable.milliCPU, info.nonZeroRequested.milliCPU)
    else if resource == ResourceMemory then
      ValuePair(info.allocatable.memory, info.nonZeroRequested.memory)
    else if resource == ResourcePods then
      ValuePair(info.allocatable.allowedPodNumber, info.podCount)
    else if resource == ResourceEphemeralStorage then
      ValuePair(info.allocatable.ephemeralStorage, info.nonZeroRequested.ephemeralStorage)
    else if isScalar(resource) then
      ValuePair(Lookup(info.allocatable.scalarResources, resource), Lookup(info.nonZeroRequested.scalarResources, resource))
    else
      ValuePair(0, 0)
  }

  /** The resolver used by the scorer. Without a metrics client, or when the
      query fails, it is the static path; otherwise measured CPU and memory
      usage become the cost unless the measurement is exactly zero. The query
      names the node, so a client requires the node to be present. */
  function AllocatableCost(hasMetricsClient: bool, query: MetricsQuery, info: NodeInfo,
                           resource: ResourceName, isScalar: ResourceName -> bool): (r: ValuePair)
    requires !hasMetricsClient || info.node.Some?
    ensures !hasMetricsClient || query.QueryFailed? ==> r == AllocatableRequest(info, resource, isScalar)
    ensures r.allocatable == AllocatableRequest(info, resource, isScalar).allocatable
  {
    if !hasMetricsClient then
      AllocatableRequest(info, resource, isScalar)
    else
      match query
      case QueryFailed => AllocatableRequest(info, resource, isScalar)
      case NodeUsage(cpuMilli, memoryBytes) =>
        if resource == ResourceCPU then
          if cpuMilli == 0 then ValuePair(info.allocatable.milliCPU, info.nonZeroRequested.milliCPU)
          else ValuePair(info.allocatable.milliCPU, cpuMilli)
        else if resource == ResourceMemory then
          if memoryBytes == 0 then ValuePair(info.allocatable.memory, info.nonZeroRequested.memory)
          else ValuePair(info.allocatable.memory, memoryBytes)
        else if resource == ResourcePods then
          ValuePair(info.allocatable.allowedPodNumber, info.podCount)
        else if resource == ResourceEphemeralStorage then
          ValuePair(info.allocatable.ephemeralStorage, info.requested.ephemeralStorage)
        else if isScalar(resource) then
          ValuePair(Lookup(info.allocatable.scalarResources, resource), Lookup(info.requested.scalarResources, resource))
        else
          ValuePair(0, 0)
  }

  /** The allocatable component never depends on the metrics server: any two
      client settings and query outcomes give the same capacity. */
  lemma AllocatableIgnoresTelemetry(h1: bool, q1: MetricsQuery, h2: bool, q2: MetricsQuery,
                                    info: NodeInfo, resource: ResourceName, isScalar: ResourceName -> bool)
    requires !h1 || info.node.Some?
    requires !h2 || info.node.Some?
    ensures AllocatableCost(h1, q1, info, resource, isScalar).allocatable
         == AllocatableCost(h2, q2, info, resource, isScalar).allocatable
  {
  }

  /** A measured CPU or memory usage of exactly zero is distrusted: the
      resolver then answers exactly as the static path does. */
  lemma ZeroUsageFallsBackToRequests(info: NodeInfo, cpuMilli: Int64, memoryBytes: Int64,
                                     resource: ResourceName, isScalar: ResourceName -> bool)
    requires info.node.Some?
    requires (resource == ResourceCPU && cpuMilli == 0) || (resource == ResourceMemory && memoryBytes == 0)
    ensures AllocatableCost(true, NodeUsage(cpuMilli, memoryBytes), info, resource, isScalar)
         == AllocatableRequest(info, resource, isScalar)
  {
  }

  /** A non-zero measured usage is the cost of CPU or memory, next to the
      node's allocatable amount of that dimension. */
  lemma MeasuredUsageIsCost(info: NodeInfo, cpuMilli: Int64, memoryBytes: Int64, isScalar: ResourceName -> bool)
    requires info.node.Some?
    ensures cpuMilli != 0 ==>
      AllocatableCost(true, NodeUsage(cpuMilli, memoryBytes), info, ResourceCPU, isScalar)
        == ValuePair(info.allocatable.milliCPU, cpuMilli)
    ensures memoryBytes != 0 ==>
      AllocatableCost(true, NodeUsage(cpuMilli, memoryBytes), info, ResourceMemory, isScalar)
        == ValuePair(info.allocatable.memory, memoryBytes)
  {
  }

  /** Pods have no telemetry variant: the maximum pod number and the bound pod
      count, whatever the metrics server says. */
  lemma PodsIgnoreTelemetry(hasMetricsClient: bool, query: MetricsQuery, info: NodeInfo, isScalar: ResourceName -> bool)
    requires !hasMetricsClient || info.node.Some?
    ensures AllocatableCost(hasMetricsClient, query, info, ResourcePods, isScalar)
         == ValuePair(info.allocatable.allowedPodNumber, info.podCount)
  {
  }

  /** A name that is none of the four named dimensions and not a scalar
      resource name resolves to (0, 0) on every path. */
  lemma UnsupportedResourceIsZero(hasMetricsClient: bool, query: MetricsQuery, info: NodeInfo,
                                  resource: ResourceName, isScalar: ResourceName -> bool)
    requires !hasMetricsClient || info.node.Some?
    requires !IsNamedDimension(resource) && !isScalar(resource)
    ensures AllocatableRequest(info, resource, isScalar) == ValuePair(0, 0)
    ensures AllocatableCost(hasMetricsClient, query, info, resource, isScalar) == ValuePair(0, 0)
  {
  }

  /** For ephemeral storage and scalar resources the same query outcome
      yields different cost sources depending on the client: `Requested` when
      a client answered, `NonZeroRequested` when there is no client. */
  lemma StorageAndScalarCostSources(info: NodeInfo, cpuMilli: Int64, memoryBytes: Int64,
                                    resource: ResourceName, isScalar: ResourceName -> bool)
    requires info.node.Some?
    requires resource == ResourceEphemeralStorage || (!IsNamedDimension(resource) && isScalar(resource))
    ensures && AllocatableCost(true, NodeUsage(cpuMilli, memoryBytes), info, resource, isScalar).cost
                 == Amount(info.requested, resource, isScalar)
            && AllocatableCost(false, NodeUsage(cpuMilli, memoryBytes), info, resource, isScalar).cost
                 == Amount(info.nonZeroRequested, resource, isScalar)
  {
  }

  /** After a successful query, the cost sources the telemetry path consults
      for `resource` coincide with the static path's: a measured CPU or memory
      usage that is zero or equals the non-zero request, and `Requested` equal
      to `NonZeroRequested` for ephemeral storage and scalar resources. */
  predicate CostSourcesAgree(info: NodeInfo, cpuMilli: Int64, memoryBytes: Int64,
                             resource: ResourceName, isScalar: ResourceName -> bool)
  {
    && (resource == ResourceCPU ==> cpuMilli == 0 || cpuMilli == info.nonZeroRequested.milliCPU)
    && (resource == ResourceMemory ==> memoryBytes == 0 || memoryBytes == info.nonZeroRequested.memory)
    && (resource == ResourceEphemeralStorage ==>
          info.requested.ephemeralStorage == info.nonZeroRequested.ephemeralStorage)
    && (!IsNamedDimension(resource) && isScalar(resource) ==>
          Lookup(info.requested.scalarResources, resource) == Lookup(info.nonZeroRequested.scalarResources, resource))
  }

  /** After a successful query the two paths agree exactly when the cost
      sources coincide; pods and unsupported names always agree. */
  lemma TelemetryAgreesWithRequestsIff(info: NodeInfo, cpuMilli: Int64, memoryBytes: Int64,
                                       resource: ResourceName, isScalar: ResourceName -> bool)
    requires info.node.Some?
    ensures AllocatableCost(true, NodeUsage(cpuMilli, memoryBytes), info, resource, isScalar)
              == AllocatableRequest(info, resource, isScalar)
        <==> CostSourcesAgree(info, cpuMilli, memoryBytes, resource, isScalar)
  {
  }
}
