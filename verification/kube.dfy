/** The parts of the Kubernetes scheduler framework that the load-aware scorer
    reads, as plain immutable values: resource names, the per-node `Resource`
    record and the `NodeInfo` snapshot the host framework hands to a plugin. */
module Kube {

  /** Go's `int64`. Nothing in the modelled code does arithmetic on these
      values, so only the range is recorded. */
  type Int64 = x: int | -0x8000_0000_0000_0000 <= x < 0x8000_0000_0000_0000

  /** A Go slice length converted to `int64`: never negative. */
  type Count = x: int | 0 <= x < 0x8000_0000_0000_0000

  datatype Option<T> = None | Some(value: T)

  /** `v1.ResourceName` is a string type. The resolver dispatches on the
      constants `v1.ResourceCPU`, `v1.ResourceMemory`, `v1.ResourcePodNum` and
      `v1.ResourceEphemeralStorage`; their string values live in the
      Kubernetes API package, not in the scorer, so the values below are
      assumptions of this model (`ResourcePods` stands for
      `v1.ResourcePodNum`, assumed to be "pods"). */
  type ResourceName = string

  const ResourceCPU: ResourceName := "cpu"
  const ResourceMemory: ResourceName := "memory"
  const ResourcePods: ResourceName := "pods"
  const ResourceEphemeralStorage: ResourceName := "ephemeral-storage"

  /** True of the four names with a dedicated field in `Resource`. */
  predicate IsNamedDimension(name: ResourceName) {
    name == ResourceCPU || name == ResourceMemory || name == ResourcePods || name == ResourceEphemeralStorage
  }

  type ScalarMap = map<ResourceName, Int64>

  /** Go's map index: a key that is absent reads as the zero value. */
  function Lookup(m: ScalarMap, name: ResourceName): (amount: Int64) {
    if name in m then m[name] else 0
  }

  /** The framework's `Resource` record: amounts per dimension, in the
      dimension's base unit (millicores, bytes, a count). */
  datatype Resource = Resource(
    milliCPU: Int64,
    memory: Int64,
    ephemeralStorage: Int64,
    allowedPodNumber: Int64,
    scalarResources: ScalarMap)

  datatype Node = Node(name: string)

  /** A node snapshot. `node` is absent when the framework has no `Node`
      object for it; `podCount` is the number of pods bound to the node. */
  datatype NodeInfo = NodeInfo(
    node: Option<Node>,
    requested: Resource,
    nonZeroRequested: Resource,
    allocatable: Resource,
    podCount: Count)

  /** The amount of one named dimension held by a `Resource` record: the
      dedicated field for the four named dimensions, the scalar map for a name
      the scalar-name predicate accepts, and nothing for any other name.
      `isScalar` stands for the framework's scalar-resource-name test. */
  function Amount(r: Resource, name: ResourceName, isScalar: ResourceName -> bool): (amount: Int64) {
    if name == ResourceCPU then r.milliCPU
    else if name == ResourceMemory then r.memory
    else if name == ResourcePods then r.allowedPodNumber
    else if name == ResourceEphemeralStorage then r.ephemeralStorage
    else if isScalar(name) then Lookup(r.scalarResources, name)
    else 0
  }

  /** The framework's `Status`: `Success` stands for a nil status. */
  datatype Status = Success | Error(reason: string)
}
