/**
 * The fixed descriptor tables: the set layout (binding 0 the uniform buffer,
 * bindings 1..MAX_NUM_TEXTURE_BINDING combined image samplers) and the pool
 * sizes (one entry per binding, each for MAX_FRAMES_IN_FLIGHT descriptors).
 */
module Descriptors {
  import opened VkTypes

  datatype DescriptorType = UniformBufferDescriptor | CombinedImageSamplerDescriptor

  datatype ShaderStage = VertexStage | FragmentStage

  datatype LayoutBinding = LayoutBinding(binding: nat, descriptorType: DescriptorType, descriptorCount: nat, stage: ShaderStage)

  datatype PoolSize = PoolSize(descriptorType: DescriptorType, descriptorCount: nat)

  const UBO_BINDING: LayoutBinding := LayoutBinding(0, UniformBufferDescriptor, 1, VertexStage)

  function SamplerBinding(binding: nat): LayoutBinding {
    LayoutBinding(binding, CombinedImageSamplerDescriptor, 1, FragmentStage)
  }

  /** The default layout: the uniform buffer first, then one sampler per texture binding. */
  ghost predicate IsDefaultLayout(bindings: seq<LayoutBinding>) {
    && |bindings| == 1 + MAX_NUM_TEXTURE_BINDING
    && bindings[0] == UBO_BINDING
    && forall i :: 1 <= i < |bindings| ==> bindings[i] == SamplerBinding(i)
  }

  /** The default pool: one entry per binding, each with MAX_FRAMES_IN_FLIGHT descriptors. */
  ghost predicate IsDefaultPool(poolSizes: seq<PoolSize>) {
    && |poolSizes| == 1 + MAX_NUM_TEXTURE_BINDING
    && poolSizes[0] == PoolSize(UniformBufferDescriptor, MAX_FRAMES_IN_FLIGHT)
    && forall i :: 1 <= i < |poolSizes| ==> poolSizes[i] == PoolSize(CombinedImageSamplerDescriptor, MAX_FRAMES_IN_FLIGHT)
  }

  /** CreateDefaultDescriptorSetLayout's binding table. */
  method BuildDefaultLayoutBindings() returns (bindings: seq<LayoutBinding>)
    ensures IsDefaultLayout(bindings)
    ensures forall i :: 0 <= i < |bindings| ==> bindings[i].binding == i && bindings[i].descriptorCount == 1
  {
    bindings := [UBO_BINDING];
    var i := 0;
    while i < MAX_NUM_TEXTURE_BINDING
      invariant 0 <= i <= MAX_NUM_TEXTURE_BINDING
      invariant |bindings| == 1 + i
      invariant bindings[0] == UBO_BINDING
      invariant forall k :: 1 <= k < |bindings| ==> bindings[k] == SamplerBinding(k)
    {
      bindings := bindings + [SamplerBinding(1 + i)];
      i := i + 1;
    }
  }

  /** CreateDescriptorPool's pool-size table. */
  method BuildDescriptorPoolSizes() returns (poolSizes: seq<PoolSize>, maxSets: nat)
    ensures IsDefaultPool(poolSizes)
    ensures maxSets == MAX_FRAMES_IN_FLIGHT
  {
    poolSizes := [PoolSize(UniformBufferDescriptor, MAX_FRAMES_IN_FLIGHT)];
    var i := 0;
    while i < MAX_NUM_TEXTURE_BINDING
      invariant 0 <= i <= MAX_NUM_TEXTURE_BINDING
      invariant |poolSizes| == 1 + i
      invariant poolSizes[0] == PoolSize(UniformBufferDescriptor, MAX_FRAMES_IN_FLIGHT)
      invariant forall k :: 1 <= k < |poolSizes| ==> poolSizes[k] == PoolSize(CombinedImageSamplerDescriptor, MAX_FRAMES_IN_FLIGHT)
    {
      poolSizes := poolSizes + [PoolSize(CombinedImageSamplerDescriptor, MAX_FRAMES_IN_FLIGHT)];
      i := i + 1;
    }
    maxSets := MAX_FRAMES_IN_FLIGHT;
  }

  /** Descriptors of type `t` one set with this layout needs. */
  function Demand(bindings: seq<LayoutBinding>, t: DescriptorType): nat {
    if |bindings| == 0 then 0
    else (if bindings[0].descriptorType == t then bindings[0].descriptorCount else 0) + Demand(bindings[1..], t)
  }

  /** Descriptors of type `t` the pool holds. */
  function Capacity(poolSizes: seq<PoolSize>, t: DescriptorType): nat {
    if |poolSizes| == 0 then 0
    else (if poolSizes[0].descriptorType == t then poolSizes[0].descriptorCount else 0) + Capacity(poolSizes[1..], t)
  }

  /** A pool whose entries mirror the bindings scaled by `sets` holds exactly `sets` sets' worth of each type. */
  lemma {:induction false} MirroredPoolCapacity(bindings: seq<LayoutBinding>, poolSizes: seq<PoolSize>, sets: nat, t: DescriptorType)
    requires |poolSizes| == |bindings|
    requires forall i :: 0 <= i < |bindings| ==>
               poolSizes[i].descriptorType == bindings[i].descriptorType
               && poolSizes[i].descriptorCount == sets * bindings[i].descriptorCount
    ensures Capacity(poolSizes, t) == sets * Demand(bindings, t)
    decreases |bindings|
  {
    if |bindings| > 0 {
      MirroredPoolCapacity(bindings[1..], poolSizes[1..], sets, t);
    }
  }

  /**
   * The default pool holds, for every descriptor type, exactly what
   * MAX_FRAMES_IN_FLIGHT sets of the default layout need: one set per frame
   * slot can be allocated.
   */
  lemma DefaultPoolServesEveryFrameSlot(bindings: seq<LayoutBinding>, poolSizes: seq<PoolSize>, t: DescriptorType)
    requires IsDefaultLayout(bindings)
    requires IsDefaultPool(poolSizes)
    ensures Capacity(poolSizes, t) == MAX_FRAMES_IN_FLIGHT * Demand(bindings, t)
  {
    MirroredPoolCapacity(bindings, poolSizes, MAX_FRAMES_IN_FLIGHT, t);
  }
}
