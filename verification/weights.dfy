/** The resource-to-weight table of the load-aware scorer. */
module Weights {
  import opened Kube

  type WeightMap = map<ResourceName, Int64>

  /** The default table: memory and pods weigh 1 and CPU weighs `1 << 20`, so
      that one millicore counts as much as one mebibyte of memory. */
  function DefaultWeights(): (m: WeightMap)
    ensures m.Keys == {ResourceMemory, ResourceCPU, ResourcePods}
    ensures m[ResourceMemory] == 1 && m[ResourcePods] == 1
    ensures m[ResourceCPU] == 1048576
  {
    map[ResourceMemory := 1, ResourceCPU := ((1 as bv64) << 20) as int, ResourcePods := 1]
  }

  /** The rationale stated beside the Go constant: a millicore of CPU weighs exactly
      one mebibyte (2^20 bytes) of memory. */
  lemma MillicoreWeighsOneMebibyte()
    ensures DefaultWeights()[ResourceCPU] == 1024 * 1024 * DefaultWeights()[ResourceMemory]
  {
  }
}
