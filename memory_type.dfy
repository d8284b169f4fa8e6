/** Memory-type selection: the lowest memory type index allowed by a
    resource's `memoryTypeBits` filter whose property flags include every
    requested property, as the Vulkan "Memory Allocation" chapter
    prescribes for `VkPhysicalDeviceMemoryProperties`. */
module MemoryTypes {
  import opened Outcomes
  import opened Vk

  /** `VK_MAX_MEMORY_TYPES`: the bound on `memoryTypeCount`. */
  const MAX_MEMORY_TYPES: nat := 32

  const NO_MEMORY_TYPE := "Failed to find a suitable memory type"

  /** `typeFilter & (1 << i)` is non-zero. */
  predicate Allowed(typeFilter: bv32, i: nat)
    requires i < MAX_MEMORY_TYPES
  {
    typeFilter & ((1 as bv32) << i) != 0
  }

  /** Memory type `i` is acceptable: allowed by the filter and carrying every
      requested property flag. */
  predicate Acceptable(typeFilter: bv32, memoryTypes: seq<bv32>, properties: bv32, i: nat)
    requires i < |memoryTypes| <= MAX_MEMORY_TYPES
  {
    Allowed(typeFilter, i) && HasAll(memoryTypes[i], properties)
  }

  /** `find_memory_type`; `memoryTypes[i]` is `memoryTypes[i].propertyFlags`
      and `|memoryTypes|` is `memoryTypeCount`. */
  method FindMemoryType(typeFilter: bv32, memoryTypes: seq<bv32>, properties: bv32) returns (r: Result<nat>)
    requires |memoryTypes| <= MAX_MEMORY_TYPES
    ensures r.Ok? ==> r.value < |memoryTypes| && Acceptable(typeFilter, memoryTypes, properties, r.value)
    ensures r.Ok? ==> forall j :: 0 <= j < r.value ==> !Acceptable(typeFilter, memoryTypes, properties, j)
    ensures r.Err? <==> forall j :: 0 <= j < |memoryTypes| ==> !Acceptable(typeFilter, memoryTypes, properties, j)
    ensures r.Err? ==> r.error == RuntimeError(NO_MEMORY_TYPE)
    ensures typeFilter == 0 ==> r.Err?
  {
    var i := 0;
    while i < |memoryTypes|
      invariant 0 <= i <= |memoryTypes|
      invariant forall j :: 0 <= j < i ==> !Acceptable(typeFilter, memoryTypes, properties, j)
    {
      if Acceptable(typeFilter, memoryTypes, properties, i) {
        return Ok(i);
      }
      i := i + 1;
    }
    return Err(RuntimeError(NO_MEMORY_TYPE));
  }
}
