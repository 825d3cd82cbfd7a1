# Load-aware node scoring: resource resolver and score aggregation

This project models the scoring core of the LoadAware scheduler plugin
(`plugin/LoadAware/metrics_obtain.go`) in Dafny and proves properties of it.

The core has three parts:

- **Default weight table.** A constant map from resource name to weight.
- **Resource resolver.** For one node and one resource name it returns the pair
  (allocatable, cost). The static path reads only the node snapshot.
  `AllocatableRequest` takes cost from the non-zero requests. When a metrics
  client is configured and its query succeeds, `AllocatableCost` instead uses
  the measured CPU and memory usage. A measurement of exactly zero is not
  trusted, and the requests are used instead.
- **Score aggregation.** `Score` rejects an absent node and a nil weight map.
  Otherwise it builds the allocatable and cost maps over the weight map's
  resources and passes them to the configured ranking function, as
  `scorer(cost, allocatable)`.

Modules:

- `Kube` (`kube.dfy`): the framework values the code reads. These are
  `NodeInfo`, `Resource`, resource names, `Status` and Go's `int64` range.
  `Amount` gives the quantity of one named dimension held by a `Resource`
  record. The resolver's contracts are stated in terms of it.
- `Weights` (`weights.dfy`): the default weight table.
- `Resolver` (`resolver.dfy`): the two resolver paths and the lemmas that
  relate them.
- `Allocation` (`allocation.dfy`): the scorer record, the `Score` method and
  lemmas about the maps it hands to the ranking function. `Score` builds the
  maps with a loop, as the source does. Its contract ties the loop's result to
  the map comprehensions `AllocatableMap` and `CostMap`.

Foreign code is modelled as follows:

- The framework's scalar-resource-name test is the parameter
  `isScalar: ResourceName -> bool`.
- The metrics server's answer is the parameter `query: MetricsQuery`. It is
  either `QueryFailed` or `NodeUsage(cpuMilli, memoryBytes)`.
- Whether a client exists at all is the scorer's `hasMetricsClient` field.
  A nil client becomes `false`.
- The ranking function is the scorer's `scorer` field: an arbitrary total
  function.

Three behaviours of the code are easy to overlook:

- The ranking function receives unweighted maps
  (`plugin/LoadAware/metrics_obtain.go:64-69`). The weight map only chooses
  which resources are resolved.
- Only a nil weight map is rejected (line 61). An empty map scores
  successfully.
- The static path reads `NonZeroRequested` for ephemeral storage and scalar
  resources (lines 126, 129). The telemetry path reads `Requested` for them
  (lines 105, 108).

## Model

| member | source | states |
|---|---|---|
| Weights.DefaultWeights | plugin/LoadAware/metrics_obtain.go:37-41 | The default table has exactly the keys memory, cpu and pods. Memory and pods weigh 1 and cpu weighs 1048576 (`1 << 20`). |
| Weights.MillicoreWeighsOneMebibyte | plugin/LoadAware/metrics_obtain.go:37-41 | One millicore of CPU weighs as much as 2^20 bytes of memory. |
| Resolver.AllocatableRequest | plugin/LoadAware/metrics_obtain.go:117-136 | Static path: allocatable is the node's allocatable amount of the dimension. Cost is the non-zero requested amount, or the bound pod count for pods. An unrecognised name that is not a scalar resource reads as 0 in both. |
| Resolver.AllocatableCost | plugin/LoadAware/metrics_obtain.go:78-115 | With no metrics client, or after a failed query, the result equals the static path's pair. On every path the allocatable component equals the static path's. A client requires the node to be present, because the query names it. |
| Resolver.AllocatableIgnoresTelemetry | plugin/LoadAware/metrics_obtain.go:79-130 | Any two client settings and query outcomes give the same allocatable component. |
| Resolver.ZeroUsageFallsBackToRequests | plugin/LoadAware/metrics_obtain.go:90-101 | A measured CPU usage of 0 (for cpu), or a measured memory usage of 0 (for memory), gives exactly the static path's pair. |
| Resolver.MeasuredUsageIsCost | plugin/LoadAware/metrics_obtain.go:90-101 | Non-zero measured CPU gives (allocatable millicores, measured millicores). Non-zero measured memory gives (allocatable bytes, measured bytes). |
| Resolver.PodsIgnoreTelemetry | plugin/LoadAware/metrics_obtain.go:102-124 | Pods resolve to (allowed pod number, bound pod count) on every path. |
| Resolver.UnsupportedResourceIsZero | plugin/LoadAware/metrics_obtain.go:106-135 | A name that is none of cpu, memory, pods or ephemeral-storage, and fails the scalar test, resolves to (0, 0) on both paths. |
| Resolver.StorageAndScalarCostSources | plugin/LoadAware/metrics_obtain.go:104-129 | For ephemeral storage and scalar resources, the same successful query outcome gives the `Requested` amount as cost when a client exists, and the `NonZeroRequested` amount when there is no client. |
| Resolver.TelemetryAgreesWithRequestsIff | plugin/LoadAware/metrics_obtain.go:89-130 | After a successful query, the two paths give the same pair if and only if certain cost sources coincide (listed below). Pods and unsupported names always agree. |
| Allocation.Score | plugin/LoadAware/metrics_obtain.go:54-76 | An absent node gives (0, "node not found"). A present node with a nil weight map gives (0, "resources not found"). Success happens exactly when both are present, the empty map included. The score is then `scorer(cost, allocatable)`, over maps whose keys are exactly the weight map's keys and whose entries are the resolver's pair. |
| Allocation.FailedQueryScoresLikeNoClient | plugin/LoadAware/metrics_obtain.go:80-87 | A failed query and a missing client give the ranking function identical allocatable and cost maps. |
| Allocation.AllocatableMapIgnoresTelemetry | plugin/LoadAware/metrics_obtain.go:64-68 | The allocatable map handed to the ranking function is the same whatever the metrics server reports. |
| Allocation.TelemetryCostMapAgreesIff | plugin/LoadAware/metrics_obtain.go:64-69 | After a successful query, the cost map handed to the ranking function equals the one a client-less scorer would build if and only if the cost sources coincide for every weighted resource. |
| Allocation.UnsupportedResourceAddsZeroEntry | plugin/LoadAware/metrics_obtain.go:64-68 | Adding an unsupported resource name to the weighted set only adds a 0 entry to each map. Every other entry is unchanged. |

For `Resolver.TelemetryAgreesWithRequestsIff` and
`Allocation.TelemetryCostMapAgreesIff`, the predicate
`Resolver.CostSourcesAgree` says when the cost sources coincide:

- CPU usage that is 0 or equals the non-zero CPU request;
- memory usage that is 0 or equals the non-zero memory request;
- `Requested` equal to `NonZeroRequested` for ephemeral storage and for scalar
  resources.

## Left out

- The bootstrap integration test (`main_test.go`): flag parsing, kubeconfig
  files, test servers and plugin registration are host plumbing with no
  scoring logic.
- The metrics-server call. It is a network request, so it becomes the
  `query` parameter. Timeouts are not modelled.
- The per-resource query. The source queries the metrics server once per
  resource. The model takes one outcome for the whole `Score` call.
- Logging and JSON encoding of the maps. These are observability side effects
  that do not affect the result.
- The ranking functions (Least/Most), clamping and rounding. Their bodies are
  not part of this model, so `scorer` stays an arbitrary function. No claim is
  made about score bounds or about the effect of a (0, 0) entry on the score.
- The nil-pointer panic at `plugin/LoadAware/metrics_obtain.go:83`. A scorer
  with a metrics client dereferences the node's name there. The resolver
  requires a present node when a client exists. `Score`, the only caller,
  rules out an absent node first (line 58).
- The string values of the resource-name constants. They are defined in the
  Kubernetes API package. The model assumes "cpu", "memory", "pods" (for
  `v1.ResourcePodNum`) and "ephemeral-storage".
- The framework's scalar-resource-name test. It is library code, so it becomes
  the `isScalar` parameter.
- Conversion of measured quantities. The metrics outcome carries the already
  converted millicore and byte values. The `Quantity`-to-`int64` rounding in
  the library is not modelled.
- Node fields other than the name, and the pod list. The pod list is kept
  only as its length, `podCount`.
- Configuration validation: negative weights, duplicate names, merging with the
  defaults. None of it appears in the modelled code.
- Concurrent scoring of several nodes. Each call is a pure function of its
  inputs, so there is no shared state to model.
