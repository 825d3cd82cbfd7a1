/** The allocation scorer: resolves every resource named in the weight map for
    one node and hands the resulting allocatable and cost maps to a pluggable
    ranking function. */
module Allocation {
  import opened Kube
  import opened Resolver
  import opened Weights

  /** Per-resource values handed to the ranking function. */
  type ValueMap = map<ResourceName, Int64>

  /** The scorer's configuration. `scorer` is the ranking function, called as
      `scorer(cost, allocatable)`; its body is outside this model. `weights`
      is absent for a nil map. `hasMetricsClient` records whether a metrics
      client was configured. */
  datatype AllocationScorer = AllocationScorer(
    name: string,
    scorer: (ValueMap, ValueMap) -> Int64,
    weights: Option<WeightMap>,
    hasMetricsClient: bool)

  /** The allocatable component of every resource in `keys`. */
  function AllocatableMap(hasMetricsClient: bool, query: MetricsQuery, info: NodeInfo,
                          keys: set<ResourceName>, isScalar: ResourceName -> bool): (allocatable: ValueMap)
    requires !hasMetricsClient || info.node.Some?
  {
    map k | k in keys :: AllocatableCost(hasMetricsClient, query, info, k, isScalar).allocatable
  }

  /** The cost component of every resource in `keys`. */
  function CostMap(hasMetricsClient: bool, query: MetricsQuery, info: NodeInfo,
                   keys: set<ResourceName>, isScalar: ResourceName -> bool): (cost: ValueMap)
    requires !hasMetricsClient || info.node.Some?
  {
    map k | k in keys :: AllocatableCost(hasMetricsClient, query, info, k, isScalar).cost
  }

  /** Scores one node. An absent node and a nil weight map are errors with
      score 0; any other weight map, the empty one included, succeeds with the
      ranking function applied to the cost and allocatable maps, whose keys are
      exactly the weight map's resources. The weights themselves are not
      applied here. */
  method Score(s: AllocationScorer, info: NodeInfo, query: MetricsQuery, isScalar: ResourceName -> bool)
    returns (score: Int64, status: Status)
    ensures info.node.None? ==> score == 0 && status == Error("node not found")
    ensures info.node.Some? && s.weights.None? ==> score == 0 && status == Error("resources not found")
    ensures status == Success <==> info.node.Some? && s.weights.Some?
    ensures status == Success ==>
      score == s.scorer(CostMap(s.hasMetricsClient, query, info, s.weights.value.Keys, isScalar),
                        AllocatableMap(s.hasMetricsClient, query, info, s.weights.value.Keys, isScalar))
  {
    if info.node.None? {
      return 0, Error("node not found");
    }
    if s.weights.None? {
      return 0, Error("resources not found");
    }
    var resources := s.weights.value.Keys;
    var cost: ValueMap := map[];
    var allocatable: ValueMap := map[];
    var remaining := resources;
    while remaining != {}
      invariant remaining <= resources
      invariant allocatable.Keys == resources - remaining
      invariant cost.Keys == resources - remaining
      invariant forall k :: k in allocatable ==> allocatable[k] == AllocatableCost(s.hasMetricsClient, query, info, k, isScalar).allocatable
      invariant forall k :: k in cost ==> cost[k] == AllocatableCost(s.hasMetricsClient, query, info, k, isScalar).cost
      decreases remaining
    {
      var resource :| resource in remaining;
      var pair := AllocatableCost(s.hasMetricsClient, query, info, resource, isScalar);
      allocatable := allocatable[resource := pair.allocatable];
      cost := cost[resource := pair.cost];
      remaining := remaining - {resource};
    }
    assert allocatable == AllocatableMap(s.hasMetricsClient, query, info, resources, isScalar);
    assert cost == CostMap(s.hasMetricsClient, query, info, resources, isScalar);
    score := s.scorer(cost, allocatable);
    status := Success;
  }

  /** Without a metrics client and after a failed query the scorer sees the
      same maps: both are the static path's values. */
  lemma FailedQueryScoresLikeNoClient(query: MetricsQuery, info: NodeInfo, keys: set<ResourceName>,
                                      isScalar: ResourceName -> bool)
    requires info.node.Some?
    ensures AllocatableMap(true, QueryFailed, info, keys, isScalar) == AllocatableMap(false, query, info, keys, isScalar)
    ensures CostMap(true, QueryFailed, info, keys, isScalar) == CostMap(false, query, info, keys, isScalar)
  {
  }

  /** The allocatable map handed to the ranking function is the same on every
      telemetry path. */
  lemma AllocatableMapIgnoresTelemetry(h1: bool, q1: MetricsQuery, h2: bool, q2: MetricsQuery,
                                       info: NodeInfo, keys: set<ResourceName>, isScalar: ResourceName -> bool)
    requires !h1 || info.node.Some?
    requires !h2 || info.node.Some?
    ensures AllocatableMap(h1, q1, info, keys, isScalar) == AllocatableMap(h2, q2, info, keys, isScalar)
  {
    forall k | k in keys
      ensures AllocatableMap(h1, q1, info, keys, isScalar)[k] == AllocatableMap(h2, q2, info, keys, isScalar)[k]
    {
      AllocatableIgnoresTelemetry(h1, q1, h2, q2, info, k, isScalar);
    }
  }

  /** Weighting an unsupported resource name only adds a (0, 0) entry for it:
      every other entry of both maps is unchanged. */
  lemma UnsupportedResourceAddsZeroEntry(hasMetricsClient: bool, query: MetricsQuery, info: NodeInfo,
                                         keys: set<ResourceName>, resource: ResourceName, isScalar: ResourceName -> bool)
    requires !hasMetricsClient || info.node.Some?
    requires !IsNamedDimension(resource) && !isScalar(resource)
    ensures AllocatableMap(hasMetricsClient, query, info, keys + {resource}, isScalar)
         == AllocatableMap(hasMetricsClient, query, info, keys, isScalar)[resource := 0]
    ensures CostMap(hasMetricsClient, query, info, keys + {resource}, isScalar)
         == CostMap(hasMetricsClient, query, info, keys, isScalar)[resource := 0]
  {
    UnsupportedResourceIsZero(hasMetricsClient, query, info, resource, isScalar);
  }

  /** After a successful query the cost map handed to the ranking function
      equals the one built without a client exactly when, for every weighted
      resource, the cost sources of the two paths coincide. */
  lemma TelemetryCostMapAgreesIff(info: NodeInfo, cpuMilli: Int64, memoryBytes: Int64,
                                  keys: set<ResourceName>, isScalar: ResourceName -> bool)
    requires info.node.Some?
    ensures CostMap(true, NodeUsage(cpuMilli, memoryBytes), info, keys, isScalar) == CostMap(false, QueryFailed, info, keys, isScalar)
        <==> forall k :: k in keys ==> CostSourcesAgree(info, cpuMilli, memoryBytes, k, isScalar)
  {
    var measured := CostMap(true, NodeUsage(cpuMilli, memoryBytes), info, keys, isScalar);
    var requests := CostMap(false, QueryFailed, info, keys, isScalar);
    forall k | k in keys
      ensures measured[k] == requests[k] <==> CostSourcesAgree(info, cpuMilli, memoryBytes, k, isScalar)
    {
      TelemetryAgreesWithRequestsIff(info, cpuMilli, memoryBytes, k, isScalar);
    }
    if forall k :: k in keys ==> CostSourcesAgree(info, cpuMilli, memoryBytes, k, isScalar) {
      assert measured == requests;
    }
  }
}
