/** Swapchain negotiation and the swapchain's lifetime: the choice of
    surface format, present mode, extent, image count and sharing mode that
    the window-system-integration chapter of the Vulkan specification leaves
    to the application, and the create / views / depth / recreate / cleanup
    steps of `SwapchainContext`. */
module Swapchain {
  import opened Outcomes
  import opened Vk
  import Search
  import Queues
  import Formats
  import Vma
  import opened Images

  datatype SurfaceFormat = SurfaceFormat(format: Format, colorSpace: ColorSpace)

  /** The part of a `vk::SurfaceCapabilitiesKHR` the renderer reads. */
  datatype SurfaceCapabilities = SurfaceCapabilities(minImageCount: u32, maxImageCount: u32, currentExtent: Extent2D,
                                                     minImageExtent: Extent2D, maxImageExtent: Extent2D)

  /** The preferred surface format. */
  const PREFERRED_FORMAT := SurfaceFormat(B8G8R8A8Srgb, SrgbNonlinear)

  predicate IsPreferred(f: SurfaceFormat) {
    f.format == B8G8R8A8Srgb && f.colorSpace == SrgbNonlinear
  }

  /** `choose_swap_surface_format`: B8G8R8A8Srgb with the sRGB non-linear
      color space wherever it appears, else the first format offered. */
  function ChooseSurfaceFormat(formats: seq<SurfaceFormat>): (r: SurfaceFormat)
    requires |formats| > 0
    ensures r in formats
    ensures PREFERRED_FORMAT in formats <==> r == PREFERRED_FORMAT
    ensures PREFERRED_FORMAT !in formats ==> r == formats[0]
  {
    match Search.FirstIndex(formats, IsPreferred)
    case Some(i) => formats[i]
    case None => formats[0]
  }

  /** `choose_swap_present_mode`: Mailbox when offered, else FIFO, the one
      mode every implementation must support. */
  function ChoosePresentMode(modes: seq<PresentMode>): (r: PresentMode)
    ensures r == Mailbox <==> Mailbox in modes
    ensures r != Mailbox ==> r == Fifo
  {
    match Search.FirstIndex(modes, (m: PresentMode) => m == Mailbox)
    case Some(i) => modes[i]
    case None => Fifo
  }

  /** The chosen mode is always one the surface supports, given that FIFO
      always is. */
  lemma ChosenModeSupported(modes: seq<PresentMode>)
    requires Fifo in modes
    ensures ChoosePresentMode(modes) in modes
  {
  }

  /** `std::clamp<std::uint32_t>(v, lo, hi)`, which requires `lo <= hi`. */
  function Clamp(v: nat, lo: nat, hi: nat): (r: nat)
    requires lo <= hi
    ensures lo <= r <= hi
    ensures lo <= v <= hi ==> r == v
    ensures v < lo ==> r == lo
    ensures hi < v ==> r == hi
  {
    if v < lo then lo else if hi < v then hi else v
  }

  /** Extent bounds the clamp can be applied to. */
  predicate ExtentBoundsOrdered(caps: SurfaceCapabilities) {
    caps.minImageExtent.width <= caps.maxImageExtent.width && caps.minImageExtent.height <= caps.maxImageExtent.height
  }

  /** The extent choice is defined: the current extent is used, or the
      bounds the clamp then reads are ordered. */
  predicate ExtentDefined(caps: SurfaceCapabilities) {
    caps.currentExtent.width != UINT32_MAX || ExtentBoundsOrdered(caps)
  }

  /** `choose_swap_extent`: the current extent unless its width is the
      special value `0xFFFFFFFF`; then the framebuffer size (a pair of
      `int`s converted to `uint32_t`) clamped into the allowed range. */
  function ChooseExtent(caps: SurfaceCapabilities, fbWidth: int, fbHeight: int): (r: Extent2D)
    requires ExtentDefined(caps)
    ensures caps.currentExtent.width != UINT32_MAX ==> r == caps.currentExtent
    ensures caps.currentExtent.width == UINT32_MAX ==>
              && caps.minImageExtent.width <= r.width <= caps.maxImageExtent.width
              && caps.minImageExtent.height <= r.height <= caps.maxImageExtent.height
    ensures (caps.currentExtent.width == UINT32_MAX && 0 <= fbWidth
             && caps.minImageExtent.width <= fbWidth <= caps.maxImageExtent.width) ==> r.width == fbWidth
    ensures (caps.currentExtent.width == UINT32_MAX && 0 <= fbHeight
             && caps.minImageExtent.height <= fbHeight <= caps.maxImageExtent.height) ==> r.height == fbHeight
  {
    if caps.currentExtent.width != UINT32_MAX then caps.currentExtent
    else
      Extent2D(Clamp(U32(fbWidth), caps.minImageExtent.width, caps.maxImageExtent.width),
               Clamp(U32(fbHeight), caps.minImageExtent.height, caps.maxImageExtent.height))
  }

  /** The image count asked for: three for triple buffering unless the
      minimum is higher, lowered to the maximum when there is one
      (`maxImageCount == 0` meaning no limit). */
  function ImageCount(caps: SurfaceCapabilities): (r: u32)
    ensures caps.maxImageCount > 0 ==> r <= caps.maxImageCount
    ensures caps.maxImageCount == 0 || caps.minImageCount <= caps.maxImageCount ==> r >= caps.minImageCount
    ensures r >= 3 || r == caps.maxImageCount
    ensures caps.maxImageCount == 0 || (caps.maxImageCount >= 3 && caps.maxImageCount >= caps.minImageCount) ==>
              r == if caps.minImageCount < 3 then 3 else caps.minImageCount
  {
    var count: u32 := if caps.minImageCount < 3 then 3 else caps.minImageCount;
    if caps.maxImageCount > 0 && count > caps.maxImageCount then caps.maxImageCount else count
  }

  datatype SharingMode = Exclusive | Concurrent(queueFamilyIndices: seq<nat>)

  /** The sharing mode: concurrent between the two families when they
      differ, exclusive otherwise. */
  function ChooseSharing(graphicsIdx: nat, presentIdx: nat): (r: SharingMode)
    ensures r.Concurrent? <==> graphicsIdx != presentIdx
    ensures r.Concurrent? ==> r.queueFamilyIndices == [graphicsIdx, presentIdx]
  {
    if graphicsIdx != presentIdx then Concurrent([graphicsIdx, presentIdx]) else Exclusive
  }

  /** The swapchain images are shared between exactly the families the
      logical device was created with queues from. */
  lemma SharingMatchesQueues(graphicsIdx: nat, presentIdx: nat)
    ensures ChooseSharing(graphicsIdx, presentIdx).Exclusive? <==> |Queues.QueueInfos(graphicsIdx, presentIdx)| == 1
    ensures ChooseSharing(graphicsIdx, presentIdx).Concurrent? ==>
              var infos := Queues.QueueInfos(graphicsIdx, presentIdx);
              ChooseSharing(graphicsIdx, presentIdx).queueFamilyIndices
                == [infos[0].queueFamilyIndex, infos[1].queueFamilyIndex]
  {
  }

  /** `VK_IMAGE_USAGE_COLOR_ATTACHMENT_BIT` */
  const IMAGE_USAGE_COLOR_ATTACHMENT: bv32 := 0x10

  /** The `vk::SwapchainCreateInfoKHR` the renderer fills in. */
  datatype SwapchainCreateInfo = SwapchainCreateInfo(minImageCount: nat, imageFormat: Format, imageColorSpace: ColorSpace,
                                                     imageExtent: Extent2D, imageArrayLayers: nat, imageUsage: bv32,
                                                     sharing: SharingMode, presentMode: PresentMode, clipped: bool)

  /** What the surface queries of `create` answer, and the framebuffer size
      GLFW reports. */
  datatype SurfaceQueries = SurfaceQueries(capabilities: Queried<SurfaceCapabilities>,
                                           formats: Queried<seq<SurfaceFormat>>,
                                           presentModes: Queried<seq<PresentMode>>,
                                           fbWidth: int, fbHeight: int)

  const CAPABILITIES_FAILED := "Failed to query for surface capabilities"
  const FORMATS_FAILED := "Failed to query for available surface formats"
  const PRESENT_MODES_FAILED := "Failed to query for available surface present modes"
  const SWAPCHAIN_CREATE_FAILED := "Failed to create swapchain"
  const IMAGES_FAILED := "Failed to get swapchain images"
  const NO_SURFACE_FORMAT := "availableFormats[0] of an empty list"
  const EXTENT_BOUNDS_REVERSED := "std::clamp with hi < lo"

  /** The first half of `create`: the three surface queries in order, then
      the create-info built from their answers. Indexing an empty format
      list and clamping into reversed bounds (which happens only when the
      current extent is the special value) are undefined behaviour. */
  function SwapchainInfo(q: SurfaceQueries, graphicsIdx: nat, presentIdx: nat): (r: Result<SwapchainCreateInfo>)
  {
    if !q.capabilities.result.HasValue() then Err(VkError(CAPABILITIES_FAILED, q.capabilities.result.Name()))
    else if !q.formats.result.HasValue() then Err(VkError(FORMATS_FAILED, q.formats.result.Name()))
    else if !q.presentModes.result.HasValue() then Err(VkError(PRESENT_MODES_FAILED, q.presentModes.result.Name()))
    else if |q.formats.value| == 0 then Err(Error.Undefined(NO_SURFACE_FORMAT))
    else if !ExtentDefined(q.capabilities.value) then Err(Error.Undefined(EXTENT_BOUNDS_REVERSED))
    else
      var caps := q.capabilities.value;
      var fmt := ChooseSurfaceFormat(q.formats.value);
      Ok(SwapchainCreateInfo(ImageCount(caps), fmt.format, fmt.colorSpace, ChooseExtent(caps, q.fbWidth, q.fbHeight),
                             1, IMAGE_USAGE_COLOR_ATTACHMENT, ChooseSharing(graphicsIdx, presentIdx),
                             ChoosePresentMode(q.presentModes.value), true))
  }

  /** The create-info is refused with the error of the first query that
      failed, or when there is no surface format or the extent must be
      clamped into reversed bounds; otherwise it holds the choices made
      from the answers, one array layer, color-attachment usage and
      clipping. */
  lemma SwapchainInfoOutcome(q: SurfaceQueries, graphicsIdx: nat, presentIdx: nat, r: Result<SwapchainCreateInfo>)
    requires r == SwapchainInfo(q, graphicsIdx, presentIdx)
    ensures !q.capabilities.result.HasValue() ==>
              r == Err(VkError(CAPABILITIES_FAILED, q.capabilities.result.Name()))
    ensures q.capabilities.result.HasValue() && !q.formats.result.HasValue() ==>
              r == Err(VkError(FORMATS_FAILED, q.formats.result.Name()))
    ensures q.capabilities.result.HasValue() && q.formats.result.HasValue() && !q.presentModes.result.HasValue() ==>
              r == Err(VkError(PRESENT_MODES_FAILED, q.presentModes.result.Name()))
    ensures r.Ok? ==>
              && q.capabilities.result.HasValue() && q.formats.result.HasValue() && q.presentModes.result.HasValue()
              && |q.formats.value| > 0 && ExtentDefined(q.capabilities.value)
    ensures r == Err(Error.Undefined(EXTENT_BOUNDS_REVERSED)) ==>
              && q.capabilities.result.HasValue() && q.capabilities.value.currentExtent.width == UINT32_MAX
              && !ExtentBoundsOrdered(q.capabilities.value)
    ensures r.Ok? ==> r.value.imageArrayLayers == 1 && r.value.imageUsage == IMAGE_USAGE_COLOR_ATTACHMENT && r.value.clipped
    ensures (q.capabilities.result.HasValue() && q.formats.result.HasValue() && q.presentModes.result.HasValue()
             && |q.formats.value| > 0 && ExtentDefined(q.capabilities.value)) ==> r.Ok?
    ensures r.Ok? ==>
              var caps := q.capabilities.value;
              var fmt := ChooseSurfaceFormat(q.formats.value);
              && r.value.minImageCount == ImageCount(caps)
              && r.value.imageFormat == fmt.format && r.value.imageColorSpace == fmt.colorSpace
              && r.value.imageExtent == ChooseExtent(caps, q.fbWidth, q.fbHeight)
              && r.value.presentMode == ChoosePresentMode(q.presentModes.value)
              && r.value.sharing == ChooseSharing(graphicsIdx, presentIdx)
  {
  }

  /** What creating the swapchain and fetching its images answer. */
  datatype SwapchainAnswers = SwapchainAnswers(created: VkResult, handle: nat, images: Queried<seq<nat>>)

  /** The steps of the swapchain's lifetime, in the order they happen. */
  datatype SwapchainEvent =
    | DeviceWaitIdle
    | ViewsCleared
    | SwapchainReleased
    | SwapchainCreated(info: SwapchainCreateInfo)
    | ViewsCreated(count: nat)
    | DepthCreated(depthFormat: Format)

  /** The views of `images`, one per image, in image order. */
  function ColorViews(images: seq<nat>, format: Format): (r: seq<ImageView>)
    ensures |r| == |images|
    ensures forall i :: 0 <= i < |images| ==> r[i] == ImageView(images[i], format, AllLevels(Color, 1))
  {
    seq(|images|, i requires 0 <= i < |images| => ImageView(images[i], format, AllLevels(Color, 1)))
  }

  const DEPTH_IMAGE_ADDRESS: nat := 1

  /** Every step of `create` succeeds. */
  predicate CreateSucceeds(q: SurfaceQueries, graphicsIdx: nat, presentIdx: nat, answers: SwapchainAnswers) {
    SwapchainInfo(q, graphicsIdx, presentIdx).Ok? && answers.created.HasValue() && answers.images.result.HasValue()
  }

  /** Creating a view of every image succeeds. */
  predicate ViewsSucceed(images: seq<nat>, viewResults: nat -> VkResult) {
    forall i :: 0 <= i < |images| ==> viewResults(i).HasValue()
  }

  /** What `create` logs: the create-info, once it has been built. */
  function CreateLog(q: SurfaceQueries, graphicsIdx: nat, presentIdx: nat): (log: seq<SwapchainEvent>)
    ensures SwapchainInfo(q, graphicsIdx, presentIdx).Err? <==> log == []
    ensures SwapchainInfo(q, graphicsIdx, presentIdx).Ok? ==>
              log == [SwapchainCreated(SwapchainInfo(q, graphicsIdx, presentIdx).value)]
  {
    match SwapchainInfo(q, graphicsIdx, presentIdx)
    case Ok(info) => [SwapchainCreated(info)]
    case Err(_) => []
  }

  /** What `create_depth_resources` logs: the depth image, once the depth
      format is found and the image allocated. */
  function DepthLog(properties: Format -> Formats.FormatProperties, allocResult: VkResult): (log: seq<SwapchainEvent>)
    ensures log != [] <==> Formats.FindDepthFormat(properties).Ok? && allocResult == Success
    ensures log != [] ==> log == [DepthCreated(Formats.FindDepthFormat(properties).value)]
  {
    match Formats.FindDepthFormat(properties)
    case Ok(depthFormat) => if allocResult == Success then [DepthCreated(depthFormat)] else []
    case Err(_) => []
  }

  /** What `create`, `create_image_views` and `create_depth_resources`
      log, in that order, up to the first step that raises (a failing
      depth view is raised after the depth image is logged). */
  function RebuildLog(q: SurfaceQueries, graphicsIdx: nat, presentIdx: nat, answers: SwapchainAnswers,
                      viewResults: nat -> VkResult, properties: Format -> Formats.FormatProperties,
                      allocResult: VkResult): seq<SwapchainEvent>
  {
    CreateLog(q, graphicsIdx, presentIdx)
      + if CreateSucceeds(q, graphicsIdx, presentIdx, answers) && ViewsSucceed(answers.images.value, viewResults)
        then [ViewsCreated(|answers.images.value|)] + DepthLog(properties, allocResult)
        else []
  }

  /** The rebuild log is a prefix of "swapchain created, views created,
      depth image created", which goes as far as the steps succeed. */
  lemma RebuildOrder(q: SurfaceQueries, graphicsIdx: nat, presentIdx: nat, answers: SwapchainAnswers,
                     viewResults: nat -> VkResult, properties: Format -> Formats.FormatProperties, allocResult: VkResult)
    ensures var log := RebuildLog(q, graphicsIdx, presentIdx, answers, viewResults, properties, allocResult);
            && |log| <= 3
            && (SwapchainInfo(q, graphicsIdx, presentIdx).Ok? <==> |log| >= 1)
            && (|log| >= 1 ==> log[0] == SwapchainCreated(SwapchainInfo(q, graphicsIdx, presentIdx).value))
            && (|log| >= 2 <==> CreateSucceeds(q, graphicsIdx, presentIdx, answers)
                                && ViewsSucceed(answers.images.value, viewResults))
            && (|log| >= 2 ==> log[1] == ViewsCreated(|answers.images.value|))
            && (|log| == 3 <==> |log| >= 2 && Formats.FindDepthFormat(properties).Ok? && allocResult == Success)
            && (|log| == 3 ==> log[2] == DepthCreated(Formats.FindDepthFormat(properties).value))
  {
  }

  /** Appending three logs one after another is appending their
      concatenation. */
  lemma AppendAssoc<T>(a: seq<T>, b: seq<T>, c: seq<T>, d: seq<T>)
    ensures a + b + c + d == a + (b + (c + d))
  {
  }

  class SwapchainContext {
    /** The `vk::raii::SwapchainKHR`; 0 is `nullptr`. */
    var swapchain: nat
    var images: seq<nat>
    var imageViews: seq<ImageView>
    var extent: Extent2D
    var format: Format
    const depthImage: Vma.VmaImage
    /** The depth view; `None` before the first `create_depth_resources`. */
    var depthView: Option<ImageView>
    var events: seq<SwapchainEvent>

    /** `SwapchainContext{}` */
    constructor ()
      ensures swapchain == 0 && images == [] && imageViews == [] && depthView.None? && events == []
      ensures fresh(depthImage) && depthImage.Valid() && depthImage.vmaAllocator == null && depthImage.image == 0
    {
      swapchain, images, imageViews := 0, [], [];
      extent, format := Extent2D(0, 0), Format.Undefined;
      depthImage := new Vma.VmaImage.Empty();
      depthView, events := None, [];
    }

    /** `create`. `graphicsIdx` and `presentIdx` are the device's queue
        families. The swapchain handle is stored as soon as it is created,
        so a failing image query leaves the new swapchain in place with the
        old images, extent and format. */
    method Create(q: SurfaceQueries, graphicsIdx: nat, presentIdx: nat, answers: SwapchainAnswers)
      returns (err: Option<Error>)
      modifies this
      ensures depthView == old(depthView) && imageViews == old(imageViews)
      ensures SwapchainInfo(q, graphicsIdx, presentIdx).Err? ==>
                err == Some(SwapchainInfo(q, graphicsIdx, presentIdx).error)
                && swapchain == old(swapchain) && images == old(images)
                && extent == old(extent) && format == old(format)
      ensures events == old(events) + CreateLog(q, graphicsIdx, presentIdx)
      ensures SwapchainInfo(q, graphicsIdx, presentIdx).Ok? && !answers.created.HasValue() ==>
                err == Some(VkError(SWAPCHAIN_CREATE_FAILED, answers.created.Name()))
                && swapchain == old(swapchain) && images == old(images)
      ensures SwapchainInfo(q, graphicsIdx, presentIdx).Ok? && answers.created.HasValue() ==> swapchain == answers.handle
      ensures SwapchainInfo(q, graphicsIdx, presentIdx).Ok? && answers.created.HasValue()
              && !answers.images.result.HasValue() ==>
                err == Some(VkError(IMAGES_FAILED, answers.images.result.Name()))
                && images == old(images) && extent == old(extent) && format == old(format)
      ensures err.None? <==> CreateSucceeds(q, graphicsIdx, presentIdx, answers)
      ensures err.None? ==>
                var info := SwapchainInfo(q, graphicsIdx, presentIdx).value;
                images == answers.images.value && extent == info.imageExtent && format == info.imageFormat
    {
      var info := SwapchainInfo(q, graphicsIdx, presentIdx);
      if info.Err? {
        return Some(info.error);
      }
      events := events + [SwapchainCreated(info.value)];
      if !answers.created.HasValue() {
        return Some(VkError(SWAPCHAIN_CREATE_FAILED, answers.created.Name()));
      }
      swapchain := answers.handle;
      if !answers.images.result.HasValue() {
        return Some(VkError(IMAGES_FAILED, answers.images.result.Name()));
      }
      images := answers.images.value;
      extent := info.value.imageExtent;
      format := info.value.imageFormat;
      return None;
    }

    /** `create_image_views`: clear, then one color view of one level per
        image, in image order. `results(i)` is what creating view `i`
        returns; a failure raises with the views made so far in place. */
    method CreateImageViews(results: nat -> VkResult) returns (err: Option<Error>)
      modifies this
      ensures swapchain == old(swapchain) && images == old(images) && format == old(format) && extent == old(extent)
      ensures depthView == old(depthView)
      ensures err.None? <==> ViewsSucceed(images, results)
      ensures err.None? ==> imageViews == ColorViews(images, format) && events == old(events) + [ViewsCreated(|images|)]
      ensures err.Some? ==>
                exists k :: 0 <= k < |images| && !results(k).HasValue()
                  && (forall j :: 0 <= j < k ==> results(j).HasValue())
                  && err == Some(VkError(VIEW_CREATE_FAILED, results(k).Name()))
                  && imageViews == ColorViews(images[..k], format)
      ensures err.Some? ==> events == old(events)
    {
      imageViews := [];
      var i := 0;
      while i < |images|
        invariant swapchain == old(swapchain) && images == old(images) && format == old(format)
        invariant 0 <= i <= |images|
        invariant imageViews == ColorViews(images[..i], format)
        invariant forall j :: 0 <= j < i ==> results(j).HasValue()
        invariant extent == old(extent) && depthView == old(depthView)
        invariant events == old(events)
      {
        var view := CreateImageView(images[i], format, Color, 1, results(i));
        if view.Err? {
          return Some(view.error);
        }
        imageViews := imageViews + [view.value];
        assert images[..i + 1] == images[..i] + [images[i]];
        i := i + 1;
      }
      assert images[..i] == images;
      events := events + [ViewsCreated(|images|)];
      return None;
    }

    /** `create_depth_resources`: the depth format search, then the depth
        image and its view. `allocResult` and `viewResult` are what VMA and
        `createImageView` return. */
    method CreateDepthResources(allocator: Vma.Allocator, properties: Format -> Formats.FormatProperties,
                                allocResult: VkResult, viewResult: VkResult)
      returns (err: Option<Error>)
      requires allocator.Valid() && !allocator.destroyed
      requires depthImage.Valid() && (depthImage.vmaAllocator == null || depthImage.vmaAllocator == allocator)
      modifies this, allocator, depthImage
      ensures allocator.Valid() && !allocator.destroyed && depthImage.Valid()
      ensures swapchain == old(swapchain) && images == old(images) && imageViews == old(imageViews)
      ensures extent == old(extent) && format == old(format)
      ensures events == old(events) + DepthLog(properties, allocResult)
      ensures Formats.FindDepthFormat(properties).Err? ==>
                err == Some(Formats.FindDepthFormat(properties).error) && allocator.Ledger() == old(allocator.Ledger())
                && depthImage.image == old(depthImage.image) && depthImage.allocation == old(depthImage.allocation)
                && depthView == old(depthView) && events == old(events)
      ensures Formats.FindDepthFormat(properties).Ok? ==>
                DepthCreatedAs(old(allocator.Ledger()), old(depthImage.image), old(depthImage.allocation), old(depthView),
                               old(events), allocator, Formats.FindDepthFormat(properties).value, allocResult, viewResult, err)
    {
      var fmt := Formats.FindDepthFormat(properties);
      if fmt.Err? {
        return Some(fmt.error);
      }
      err := CreateDepthImage(allocator, fmt.value, allocResult, viewResult);
    }

    /** The depth image of `create_depth_resources` once the format `fmt` is
        known: a failed allocation changes nothing; otherwise the depth image
        is a fresh dedicated image of the swapchain's extent with one level
        and the one held before is freed. */
    ghost predicate DepthAllocatedAs(before: Vma.AllocatorLedger, oldImage: nat, oldAllocation: nat,
                                     oldEvents: seq<SwapchainEvent>, allocator: Vma.Allocator, fmt: Format,
                                     allocResult: VkResult)
      reads this`events, this`extent, allocator, depthImage
    {
      && (allocResult != Success ==>
            && allocator.Ledger() == before && depthImage.image == oldImage && depthImage.allocation == oldAllocation
            && events == oldEvents)
      && (allocResult == Success ==>
            && depthImage.image != 0 && depthImage.vmaAllocator == allocator
            && depthImage.allocation !in before.live + before.freed
            && allocator.info == before.info[depthImage.allocation :=
                 Vma.ImageInfo(extent.width, extent.height, 1, 1, 1, Optimal, IMAGE_USAGE_DEPTH_STENCIL_ATTACHMENT,
                               fmt, VMA_MEMORY_USAGE_AUTO, VMA_DEDICATED_MEMORY)]
            && allocator.live == before.live - Vma.Held(oldImage, oldAllocation) + {depthImage.allocation}
            && allocator.freed == before.freed + Vma.Held(oldImage, oldAllocation)
            && events == oldEvents + [DepthCreated(fmt)])
    }

    /** The whole of `create_depth_resources` once `fmt` is known: the depth
        image as above, then a view of its depth aspect when `createImageView`
        succeeds. */
    ghost predicate DepthCreatedAs(before: Vma.AllocatorLedger, oldImage: nat, oldAllocation: nat,
                                   oldView: Option<ImageView>, oldEvents: seq<SwapchainEvent>,
                                   allocator: Vma.Allocator, fmt: Format, allocResult: VkResult, viewResult: VkResult,
                                   err: Option<Error>)
      reads this`events, this`extent, this`depthView, allocator, depthImage
    {
      && DepthAllocatedAs(before, oldImage, oldAllocation, oldEvents, allocator, fmt, allocResult)
      && (allocResult != Success ==> err == Some(VkError(Vma.CREATE_FAILED, allocResult.Name())) && depthView == oldView)
      && (allocResult == Success && viewResult.HasValue() ==>
            err.None? && depthView == Some(ImageView(depthImage.image, fmt, AllLevels(Depth, 1))))
      && (allocResult == Success && !viewResult.HasValue() ==>
            err == Some(VkError(VIEW_CREATE_FAILED, viewResult.Name())) && depthView == oldView)
    }

    /** The depth image and its view, once `fmt` is known. */
    method CreateDepthImage(allocator: Vma.Allocator, fmt: Format, allocResult: VkResult, viewResult: VkResult)
      returns (err: Option<Error>)
      requires allocator.Valid() && !allocator.destroyed
      requires depthImage.Valid() && (depthImage.vmaAllocator == null || depthImage.vmaAllocator == allocator)
      modifies this, allocator, depthImage
      ensures allocator.Valid() && !allocator.destroyed && depthImage.Valid()
      ensures swapchain == old(swapchain) && images == old(images) && imageViews == old(imageViews)
      ensures extent == old(extent) && format == old(format)
      ensures DepthCreatedAs(old(allocator.Ledger()), old(depthImage.image), old(depthImage.allocation), old(depthView),
                             old(events), allocator, fmt, allocResult, viewResult, err)
    {
      err := AllocateDepthImage(allocator, fmt, allocResult);
      if err.Some? {
        return;
      }
      var view := CreateImageView(depthImage.image, fmt, Depth, 1, viewResult);
      if view.Err? {
        return Some(view.error);
      }
      depthView := Some(view.value);
      return None;
    }

    /** The depth image alone: `depthImage = VmaImage(...)` and, once it is
        allocated, the `DepthCreated` event. */
    method AllocateDepthImage(allocator: Vma.Allocator, fmt: Format, allocResult: VkResult)
      returns (err: Option<Error>)
      requires allocator.Valid() && !allocator.destroyed
      requires depthImage.Valid() && (depthImage.vmaAllocator == null || depthImage.vmaAllocator == allocator)
      modifies this`events, allocator, depthImage
      ensures allocator.Valid() && !allocator.destroyed && depthImage.Valid()
      ensures err.Some? <==> allocResult != Success
      ensures err.Some? ==> err == Some(VkError(Vma.CREATE_FAILED, allocResult.Name()))
      ensures DepthAllocatedAs(old(allocator.Ledger()), old(depthImage.image), old(depthImage.allocation),
                               old(events), allocator, fmt, allocResult)
    {
      err := Vma.AssignNewImage(depthImage, allocator, extent.width, extent.height, 1, IMAGE_USAGE_DEPTH_STENCIL_ATTACHMENT,
                                fmt, VMA_MEMORY_USAGE_AUTO, VMA_DEDICATED_MEMORY, allocResult, DEPTH_IMAGE_ADDRESS);
      if err.Some? {
        return;
      }
      events := events + [DepthCreated(fmt)];
    }

    /** `cleanup`: the views go first, then the swapchain. */
    method Cleanup()
      modifies this
      ensures imageViews == [] && swapchain == 0
      ensures events == old(events) + [ViewsCleared, SwapchainReleased]
      ensures images == old(images) && extent == old(extent) && format == old(format)
      ensures depthView == old(depthView)
    {
      imageViews := [];
      events := events + [ViewsCleared];
      swapchain := 0;
      events := events + [SwapchainReleased];
    }

    /** `recreate`, once the framebuffer has a non-zero size: wait for the
        device to go idle, clean up, then rebuild. */
    method Recreate(fbWidth: int, fbHeight: int, q: SurfaceQueries, graphicsIdx: nat, presentIdx: nat,
                    answers: SwapchainAnswers, viewResults: nat -> VkResult, allocator: Vma.Allocator,
                    properties: Format -> Formats.FormatProperties, allocResult: VkResult, viewResult: VkResult)
      returns (err: Option<Error>)
      requires fbWidth != 0 && fbHeight != 0
      requires allocator.Valid() && !allocator.destroyed
      requires depthImage.Valid() && (depthImage.vmaAllocator == null || depthImage.vmaAllocator == allocator)
      modifies this, allocator, depthImage
      ensures allocator.Valid() && !allocator.destroyed && depthImage.Valid()
      ensures events == old(events) + [DeviceWaitIdle, ViewsCleared, SwapchainReleased]
                        + RebuildLog(q, graphicsIdx, presentIdx, answers, viewResults, properties, allocResult)
      ensures !CreateSucceeds(q, graphicsIdx, presentIdx, answers) ==> err.Some? && imageViews == []
      ensures err.None? <==> RebuildSucceeds(q, graphicsIdx, presentIdx, answers, viewResults, properties, allocResult, viewResult)
      ensures err.None? ==> Presentable(q, graphicsIdx, presentIdx, answers)
    {
      events := events + [DeviceWaitIdle];
      Cleanup();
      err := Rebuild(q, graphicsIdx, presentIdx, answers, viewResults, allocator, properties, allocResult, viewResult);
    }

    /** The second half of `recreate`: `create`, `create_image_views` and
        `create_depth_resources`, stopping at the first step that raises. */
    method Rebuild(q: SurfaceQueries, graphicsIdx: nat, presentIdx: nat,
                   answers: SwapchainAnswers, viewResults: nat -> VkResult, allocator: Vma.Allocator,
                   properties: Format -> Formats.FormatProperties, allocResult: VkResult, viewResult: VkResult)
      returns (err: Option<Error>)
      requires allocator.Valid() && !allocator.destroyed
      requires depthImage.Valid() && (depthImage.vmaAllocator == null || depthImage.vmaAllocator == allocator)
      modifies this, allocator, depthImage
      ensures allocator.Valid() && !allocator.destroyed && depthImage.Valid()
      ensures events == old(events) + RebuildLog(q, graphicsIdx, presentIdx, answers, viewResults, properties, allocResult)
      ensures !CreateSucceeds(q, graphicsIdx, presentIdx, answers) ==> err.Some? && imageViews == old(imageViews)
      ensures err.None? <==> RebuildSucceeds(q, graphicsIdx, presentIdx, answers, viewResults, properties, allocResult, viewResult)
      ensures err.None? ==> Presentable(q, graphicsIdx, presentIdx, answers)
    {
      err := CreateWithViews(q, graphicsIdx, presentIdx, answers, viewResults);
      if err.Some? {
        assert RebuildLog(q, graphicsIdx, presentIdx, answers, viewResults, properties, allocResult)
            == CreateLog(q, graphicsIdx, presentIdx) + [];
        return;
      }
      assert RebuildLog(q, graphicsIdx, presentIdx, answers, viewResults, properties, allocResult)
          == CreateLog(q, graphicsIdx, presentIdx) + ([ViewsCreated(|images|)] + DepthLog(properties, allocResult));
      err := CreateDepthResources(allocator, properties, allocResult, viewResult);
      AppendAssoc(old(events), CreateLog(q, graphicsIdx, presentIdx), [ViewsCreated(|images|)], DepthLog(properties, allocResult));
    }

    /** `create` followed by `create_image_views`. */
    method CreateWithViews(q: SurfaceQueries, graphicsIdx: nat, presentIdx: nat,
                           answers: SwapchainAnswers, viewResults: nat -> VkResult)
      returns (err: Option<Error>)
      modifies this
      ensures depthView == old(depthView)
      ensures events == old(events) + CreateLog(q, graphicsIdx, presentIdx)
                        + if err.None? then [ViewsCreated(|images|)] else []
      ensures !CreateSucceeds(q, graphicsIdx, presentIdx, answers) ==> err.Some? && imageViews == old(imageViews)
      ensures err.None? <==> CreateSucceeds(q, graphicsIdx, presentIdx, answers) && ViewsSucceed(answers.images.value, viewResults)
      ensures err.None? ==> Presentable(q, graphicsIdx, presentIdx, answers)
    {
      err := Create(q, graphicsIdx, presentIdx, answers);
      if err.Some? {
        return;
      }
      err := CreateImageViews(viewResults);
    }

    /** Every step of `create`, `create_image_views` and
        `create_depth_resources` succeeds. */
    ghost predicate RebuildSucceeds(q: SurfaceQueries, graphicsIdx: nat, presentIdx: nat, answers: SwapchainAnswers,
                                    viewResults: nat -> VkResult, properties: Format -> Formats.FormatProperties,
                                    allocResult: VkResult, viewResult: VkResult)
    {
      && CreateSucceeds(q, graphicsIdx, presentIdx, answers)
      && ViewsSucceed(answers.images.value, viewResults)
      && Formats.FindDepthFormat(properties).Ok? && allocResult == Success && viewResult.HasValue()
    }

    /** The swapchain `create` made from these answers, with one view per
        image. */
    ghost predicate Presentable(q: SurfaceQueries, graphicsIdx: nat, presentIdx: nat, answers: SwapchainAnswers)
      reads this`swapchain, this`images, this`extent, this`format, this`imageViews
    {
      && SwapchainInfo(q, graphicsIdx, presentIdx).Ok?
      && swapchain == answers.handle && images == answers.images.value
      && extent == SwapchainInfo(q, graphicsIdx, presentIdx).value.imageExtent
      && format == SwapchainInfo(q, graphicsIdx, presentIdx).value.imageFormat
      && imageViews == ColorViews(images, format)
    }
  }
}
