/** Queue-family selection and the queue create-infos built from it. The
    graphics family is the first family with the graphics bit; the present
    family is the graphics family when it can present, otherwise the lowest
    other family that can. */
module Queues {
  import opened Outcomes
  import opened Vk
  import Search

  /** The part of a `vk::QueueFamilyProperties` the renderer reads. */
  datatype QueueFamily = QueueFamily(queueFlags: bv32)

  const NO_GRAPHICS_FAMILY := "No graphics queue family found"
  const GRAPHICS_SUPPORT_QUERY_FAILED := "Failed to querty for surface support"
  const PRESENT_SUPPORT_QUERY_FAILED := "Failed to query for present support"
  const NO_PRESENT_FAMILY := "Failed to find present queue family"

  predicate IsGraphics(family: QueueFamily) {
    family.queueFlags & QUEUE_GRAPHICS_BIT != 0
  }

  /** The `find_if` over the families for the graphics bit. */
  function FirstGraphics(families: seq<QueueFamily>): (r: Option<nat>)
    ensures r.Some? ==> r.value < |families| && IsGraphics(families[r.value])
    ensures r.Some? ==> forall j :: 0 <= j < r.value ==> !IsGraphics(families[j])
    ensures r.None? <==> forall j :: 0 <= j < |families| ==> !IsGraphics(families[j])
  {
    Search.FirstIndex(families, IsGraphics)
  }

  /** The answer of `getSurfaceSupportKHR(i, surface)` says "yes". */
  predicate CanPresent(answer: Queried<bool>) {
    answer.result.HasValue() && answer.value
  }

  /** The answer of `getSurfaceSupportKHR(i, surface)` says "no". */
  predicate CannotPresent(answer: Queried<bool>) {
    answer.result.HasValue() && !answer.value
  }

  /** `find_queue_families`. `support[i]` is what the surface-support query
      answers for family `i`; it is consulted only where the source queries it.
      The result is the pair (graphics index, present index). */
  method FindQueueFamilies(families: seq<QueueFamily>, support: seq<Queried<bool>>)
    returns (r: Result<(nat, nat)>)
    requires |support| == |families|
    // graphics: the first family with the graphics bit, or an error
    ensures FirstGraphics(families).None? <==> r == Err(RuntimeError(NO_GRAPHICS_FAMILY))
    ensures r.Ok? ==> FirstGraphics(families) == Some(r.value.0)
    // present: the graphics family itself exactly when it can present
    ensures r.Ok? ==> (r.value.0 == r.value.1 <==> CanPresent(support[r.value.0]))
    ensures FirstGraphics(families).Some? ==>
              var g := FirstGraphics(families).value;
              CanPresent(support[g]) ==> r == Ok((g, g))
    // otherwise the lowest other family that can present, every family before it answering "no"
    ensures r.Ok? && r.value.0 != r.value.1 ==>
              r.value.1 < |families| && CanPresent(support[r.value.1])
              && CannotPresent(support[r.value.0])
              && forall j :: 0 <= j < r.value.1 ==> CannotPresent(support[j])
    // query failures raise with the failing code
    ensures FirstGraphics(families).Some? ==>
              var g := FirstGraphics(families).value;
              !support[g].result.HasValue() ==> r == Err(VkError(GRAPHICS_SUPPORT_QUERY_FAILED, support[g].result.Name()))
    ensures r.Err? && r.error.VkError? && r.error.msg == PRESENT_SUPPORT_QUERY_FAILED ==>
              exists k :: 0 <= k < |support| && !support[k].result.HasValue()
                && r.error.code == support[k].result.Name()
                && forall j :: 0 <= j < k ==> CannotPresent(support[j])
    // no family can present
    ensures r == Err(RuntimeError(NO_PRESENT_FAMILY)) <==>
              FirstGraphics(families).Some? && forall j :: 0 <= j < |support| ==> CannotPresent(support[j])
    // nothing else raises: with a graphics family, every query answering and
    // some family able to present, the pair is found
    ensures r.Err? ==> r.error in {RuntimeError(NO_GRAPHICS_FAMILY), RuntimeError(NO_PRESENT_FAMILY)}
                       || (r.error.VkError? && r.error.msg in {GRAPHICS_SUPPORT_QUERY_FAILED, PRESENT_SUPPORT_QUERY_FAILED})
    ensures (&& FirstGraphics(families).Some?
             && (forall j :: 0 <= j < |support| ==> support[j].result.HasValue())
             && (exists j :: 0 <= j < |support| && CanPresent(support[j])))
            ==> r.Ok?
  {
    var first := FirstGraphics(families);
    if first.None? {
      return Err(RuntimeError(NO_GRAPHICS_FAMILY));
    }
    var graphicsIndex := first.value;
    var graphicsAnswer := support[graphicsIndex];
    if !graphicsAnswer.result.HasValue() {
      return Err(VkError(GRAPHICS_SUPPORT_QUERY_FAILED, graphicsAnswer.result.Name()));
    }
    if graphicsAnswer.value {
      return Ok((graphicsIndex, graphicsIndex));
    }
    var i := 0;
    while i < |families|
      invariant 0 <= i <= |families|
      invariant forall j :: 0 <= j < i ==> CannotPresent(support[j])
    {
      if i != graphicsIndex {
        var answer := support[i];
        if !answer.result.HasValue() {
          return Err(VkError(PRESENT_SUPPORT_QUERY_FAILED, answer.result.Name()));
        }
        if answer.value {
          return Ok((graphicsIndex, i));
        }
      }
      i := i + 1;
    }
    return Err(RuntimeError(NO_PRESENT_FAMILY));
  }

  /** A `vk::DeviceQueueCreateInfo`: one queue of priority 1.0 from a family. */
  datatype QueueCreateInfo = QueueCreateInfo(queueFamilyIndex: nat, queueCount: nat)

  /** The `queueInfos` vector of `create_logical_device`: the graphics
      family, then the present family unless it is the same one. */
  function QueueInfos(graphicsIdx: nat, presentIdx: nat): (r: seq<QueueCreateInfo>)
    ensures |r| == if graphicsIdx == presentIdx then 1 else 2
    ensures r[0].queueFamilyIndex == graphicsIdx
    ensures forall k :: 0 <= k < |r| ==> r[k].queueCount == 1
    ensures forall k, l :: 0 <= k < l < |r| ==> r[k].queueFamilyIndex != r[l].queueFamilyIndex
    ensures r[|r| - 1].queueFamilyIndex == presentIdx
  {
    var graphics := [QueueCreateInfo(graphicsIdx, 1)];
    if graphicsIdx != presentIdx then graphics + [QueueCreateInfo(presentIdx, 1)] else graphics
  }
}
