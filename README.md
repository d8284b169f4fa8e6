# Velo renderer core, modelled in Dafny

Velo is a small Vulkan renderer written in C++ (with `vulkan-hpp`, VMA and
GLFW). Under its Vulkan plumbing sit several pieces of discrete logic. This
project models them and proves what the code promises about them.

- **Frame loop.** `draw_frame` (`Velo`, and the older `Vorn`) claims a value
  on a timeline semaphore for every frame, waits for the frame that last used
  the same in-flight slot, and then either skips the frame or records,
  submits and presents it. `SyncContext` holds the semaphores.
- **Swapchain negotiation.** Surface format, present mode, extent clamp,
  image-count clamp, sharing mode, depth-format candidates, and the
  recreate/cleanup order of `SwapchainContext`.
- **Resource ownership.** An `Allocator` holds the set of live allocation ids.
  The `VmaBuffer`/`VmaImage` wrappers hold a nullable handle. The model covers
  their constructors, destructors, move construction, move assignment and
  accessors. It also covers the accounting that shows `cleanup` frees every
  allocation exactly once before `vmaDestroyAllocator`.
- **Uploads.** The texture layout-transition table, the staged uploads of
  textures, index and vertex buffers (as traces of one-time command
  submissions), and the per-frame command recording. Device memory is a map
  from allocation to bytes, so a buffer copy is a byte-level round trip.
- **Mesh loading.** The hash-map vertex deduplication of `load_model` and
  `load_model_per_face_material`, including the per-face material index.
- **First-match selection.** `find_supported_format`, `find_memory_type`,
  `find_queue_families`, `pick_physical_device` (filter, score, multimap
  pick) and the required extension and layer checks.

## How the model is built

- Every Vulkan, VMA and GLFW call is a parameter: the `VkResult` (and value)
  it returns, the handle or address it hands back, the bytes a loader read.
- An error the C++ raises (`handle_error`, `throw`) is an `Err` or
  `Some(error)` outcome, and the code after it does not run.
- `Error.Undefined` marks paths whose behaviour C++ leaves undefined. For
  example, `pick_physical_device` dereferences `rbegin()` of an empty
  multimap when no device survives the filter.
- A returned `vk::ResultValue` or `std::expected` has a value exactly for
  `VK_SUCCESS` (`Vk.VkResult.HasValue`). `Velo`'s acquire check relies on
  this: its `&& !recreate` guard lets a suboptimal acquire, which has no
  value, go on to record and present.
- Every swapchain recreation in the frame loop can raise (its `create`,
  `create_image_views` and `create_depth_resources` steps all do on
  failure); its outcome is an input of each frame.
- Classes stand for the objects the C++ mutates in place: the allocator, the
  wrappers, `SwapchainContext`, `SyncContext`, the renderer, the per-frame
  objects, and the mesh vectors.
- Ghost state records what is not observable but matters for correctness:
  which wrapper owns each allocation, which allocations were freed, the
  timeline values signalled, and the queue trace.
- `src/buffers.cpp`, `src/device.cpp`, `src/instance.cpp` and
  `src/physical_device.cpp` are earlier revisions of the `Velo` class, and
  `src/vorn.cpp` is a predecessor class. Where their logic matches the
  current code they share definitions with it. Where it differs the
  difference is a variant:
  - `FrameScheduler.Revision` for the two frame loops;
  - `DeviceObjects.RecreateSwapchain` has no depth resources;
  - `VornApp.Vorn` has its own cleanup order.

## Where the sources disagree

- **The `VmaImage` constructor.** `src/vma_image.cpp:6-27` defines it with
  five parameters and always builds a `WIDTH`×`HEIGHT` image with one mip
  level. Both call sites pass a width, a height and a level count
  (`src/swapchain.cpp:118`, `src/images.cpp:48`). The model follows the call
  sites (`Vma.VmaImage.Create` takes `width`, `height`, `mipLevels`), since
  that is the signature the header must declare for the code to compile.
  Those call sites also pass the dedicated-memory flag before the memory
  usage; the model passes each value under its own name.
- **Out-of-date acquires in `Vorn::draw_frame`.** `src/vorn.cpp:203-216`
  checks `has_value()` before looking for `VK_ERROR_OUT_OF_DATE_KHR`. An
  out-of-date acquire therefore raises, and the recreate branch below the
  check is unreachable; a suboptimal acquire raises too. The model keeps
  the code as written; `FrameScheduler.OutOfDateAcquire` and
  `FrameScheduler.AcquireDecision` state both revisions' behaviour.
- **Present semaphores after a recreation.** `SyncContext::create`
  (`src/velo.cpp:552-569`) sizes `presentSems` once, by the swapchain's
  image count at start-up, and a recreation does not resize it. A
  recreated swapchain with more images would make `draw_frame` index
  `presentSems[imgIdx]` past its end (`src/velo.cpp:177`, `src/velo.cpp:202`).
  The model requires the acquired index to be in range
  (`FrameScheduler.Renderer.DrawFrame`).
- **Picking a device with no survivors.** The `pick_physical_device`
  descriptions promise an error when no device is suitable. The code instead
  dereferences `rbegin()` of the empty candidate multimap
  (`src/gpu_context.cpp:199-201`, `src/physical_device.cpp:54-56`). The model
  follows the code and returns `Error.Undefined`.

## Model

| member | source | states |
|---|---|---|
| Vk.U32 | src/velo.cpp:485 | `uint32_t` arithmetic: the result fits in 32 bits and equals its argument when that is already in range |
| Vk.ToInt32 | src/velo.cpp:453 | converting a `uint32_t` to `int` keeps values below 2^31, and every value at or above 2^31 becomes negative |
| Vk.VkResult.HasValue | src/velo.cpp:161 | a returned result carries a value exactly when its code is `VK_SUCCESS` |
| Search.FirstIndex | src/unused_but_useful.cpp:6-11 | the first index whose element satisfies the test, with no earlier one satisfying it; none exactly when no element does |
| Search.AnyOf | src/instance.cpp:76-83 | `std::ranges::any_of` holds exactly when some element satisfies the test |
| Search.AllOf | src/instance.cpp:76-83 | `std::ranges::all_of` holds exactly when every element satisfies the test |
| Search.AllAvailable | src/gpu_context.cpp:239-246 | the subset test holds exactly when every required name is among the available names |
| MemoryTypes.FindMemoryType | src/unused_but_useful.cpp:4-12 | returns the smallest memory type index below `memoryTypeCount` whose bit is set in `typeFilter` and whose property flags include every requested one; raises "Failed to find a suitable memory type" exactly when there is none, and always when `typeFilter` is 0; the same search appears in `Vorn` at `src/vorn.cpp:296-305` |
| Formats.FindSupportedFormat | src/velo.cpp:240-251 | a failure is the runtime error "Failed to find supported format" |
| Formats.FirstSupported | src/velo.cpp:240-251 | the format found is the first candidate whose linear or optimal feature set (by tiling) holds every requested feature; it raises exactly when no candidate does |
| Formats.FindDepthFormat | src/swapchain.cpp:122-129 | a failure raises the unsupported-format error |
| Formats.DepthFormatChoice | src/swapchain.cpp:122-129 | D32Sfloat, D32SfloatS8Uint and D24UnormS8Uint are tried in that order under optimal tiling for the depth-stencil-attachment feature; each is chosen exactly when it is supported and no earlier one is |
| Queues.FirstGraphics | src/gpu_context.cpp:289-295 | the first queue family with the graphics bit; none exactly when no family has it |
| Queues.FindQueueFamilies | src/gpu_context.cpp:287-328 | graphics is the first graphics family, else "No graphics queue family found"; present is the graphics family exactly when it can present, else the lowest family that can, every earlier family answering no; a failed support query raises with its code; "Failed to find present queue family" exactly when no family can present; nothing else raises, so with a graphics family, every query answering and some family able to present the pair is returned; `src/physical_device.cpp:75-116` is an older copy sharing this definition |
| Queues.QueueInfos | src/gpu_context.cpp:98-112 | one create-info of one queue for the graphics family, followed by one for the present family only when it differs: one entry when the indices are equal, two distinct ones otherwise; `src/device.cpp:44-58` is an older copy of the same construction |
| DeviceSelection.GetRequiredExtensions | src/gpu_context.cpp:220-254 | a failed enumeration raises with its code; otherwise it succeeds exactly when every GLFW-required extension is available, and the result is the GLFW list followed by `VK_EXT_debug_utils` exactly when validation is on; `src/instance.cpp:57-91` is an older copy sharing this definition |
| DeviceSelection.GetRequiredLayers | src/gpu_context.cpp:256-285 | the result is the validation layers when validation is on and empty otherwise; it succeeds exactly when each of them is available, and a failed enumeration raises with its code; `src/instance.cpp:93-122` is an older copy sharing this definition |
| DeviceSelection.SetupDebugMessenger | src/instance.cpp:124-141 | does nothing when validation is off; otherwise creates the messenger, or raises with the creation code |
| DeviceSelection.Score | src/gpu_context.cpp:199-203 | 1000 for a discrete GPU plus `maxImageDimension2D`, as a `uint32_t` |
| DeviceSelection.Survivors | src/gpu_context.cpp:170-205 | the multimap holds exactly the devices the filter keeps, each under its own score |
| DeviceSelection.SurvivorsSnoc | src/gpu_context.cpp:170-205 | visiting one more device inserts that device exactly when the filter keeps it |
| DeviceSelection.Greatest | src/gpu_context.cpp:207-208 | `rbegin()` designates an entry with the greatest key, the last inserted among equal keys |
| DeviceSelection.SurvivorsOrder | src/gpu_context.cpp:204-208 | each multimap entry comes from a position of the enumeration, and every suitable device after it is a later entry, so `rbegin()` picks the last enumerated among equal keys |
| DeviceSelection.GreatestBoundsSurvivors | src/gpu_context.cpp:207-208 | no surviving device scores above the entry `rbegin()` designates |
| DeviceSelection.InsertCandidates | src/gpu_context.cpp:170-205 | the loop leaves exactly the surviving candidates in insertion order, or raises at the first device whose extension query fails |
| DeviceSelection.SelectCandidate | src/gpu_context.cpp:207-217 | with no survivor the behaviour is undefined; otherwise it picks a survivor with the greatest score if that score is positive, the last enumerated among equal greatest scores, and raises "Failed to find suitable GPU" otherwise |
| DeviceSelection.PickPhysicalDevice | src/gpu_context.cpp:159-218 | raises on a failed or empty enumeration and on a failed extension query, and with nothing else but the no-survivor and non-positive-score cases; the device picked survives the filter (features, API 1.3, extensions, graphics family), no survivor scores higher, and none enumerated after it scores as high; with every query answering and a survivor of positive score a device is picked; `src/physical_device.cpp:14-73` is an older copy sharing this definition |
| Commands.Execute | src/gpu_context.cpp:45-54 | a command changes no set of allocations; only barriers change layouts, and only copies change memory |
| Commands.ExecuteAll | src/gpu_context.cpp:45-54 | a batch of commands keeps the set of allocations |
| Commands.ExecuteSingle | src/gpu_context.cpp:45-54 | a batch of one command has that command's effect |
| Commands.CopyWholeBuffer | src/buffers.cpp:84-88 | copying region (0, 0, n) into an n-byte buffer makes it equal to the source's first n bytes and changes nothing else |
| Commands.GpuContext.BeginSingleTimeCommands | src/gpu_context.cpp:26-43 | allocates and begins a one-time buffer, or raises "Failed to allocate command buffer" with nothing recorded |
| Commands.GpuContext.Record | src/buffers.cpp:86 | a command recorded into the open buffer joins the trace and the pending batch |
| Commands.GpuContext.Discard | src/images.cpp:83-85 | a buffer abandoned by an exception is never submitted: the trace and layouts stay as they were |
| Commands.GpuContext.EndSingleTimeCommands | src/gpu_context.cpp:45-54 | ends, submits, then waits for the queue to go idle; afterwards device memory and layouts are the pending batch's effect, and the allocator's bookkeeping is unchanged |
| Images.TransitionMasks | src/images.cpp:73-85 | Undefined→TransferDst gives none/TransferWrite and TopOfPipe/Transfer; TransferDst→ShaderReadOnly gives TransferWrite/ShaderRead and Transfer/FragmentShader; every other pair raises invalid-argument "Unsupposed layout transition" |
| Images.AllLevels | src/images.cpp:64-71 | the subresource range starts at mip 0 and layer 0, covers `mips` levels and one layer |
| Images.TextureBarrier | src/images.cpp:59-72 | the barrier carries the image, both layouts, the table's masks and color aspect over all levels |
| Images.CreateImageView | src/images.cpp:10-28 | a 2D view of the image and format, with base mip 0, `mips` levels and one layer; it raises "Failed to create image view" exactly when creation has no value |
| Images.TextureRegion | src/images.cpp:119-138 | copies from buffer offset 0, tightly packed, into image offset (0,0,0) with extent (width, height, 1) on mip 0 of the color aspect: width·height·4 bytes |
| Transfers.TransitionImageTextureLayout | src/images.cpp:56-95 | a supported pair records one barrier, submits it, waits, and moves the image to the new layout; an unsupported pair raises after the begin, with no barrier recorded or submitted; a failed allocation raises before anything is recorded |
| Transfers.CopyBufferToImage | src/images.cpp:117-142 | one buffer-to-image copy into an image in TransferDstOptimal, submitted and waited for; the image then holds the buffer's first width·height·4 bytes and nothing else changes |
| Transfers.CopyBuffer | src/buffers.cpp:84-88 | one copy from offset 0 to offset 0 of `size` bytes in a synchronous one-time submission; the destination then holds the source's first `size` bytes; `Vorn::copy_buffer` at `src/vorn.cpp:268-281` makes the same copy, allocating, beginning, submitting and waiting itself |
| Swapchain.ChooseSurfaceFormat | src/swapchain.cpp:94-103 | B8G8R8A8Srgb with SrgbNonlinear exactly when that pair is offered anywhere, otherwise the first format offered; always one of the offered formats |
| Swapchain.ChoosePresentMode | src/swapchain.cpp:105-114 | Mailbox exactly when offered, FIFO otherwise |
| Swapchain.ChosenModeSupported | src/swapchain.cpp:105-114 | since FIFO is always supported, the chosen mode is always one the surface offers |
| Swapchain.Clamp | src/swapchain.cpp:81-82 | `std::clamp` keeps a value already in range and moves any other value to the nearer bound |
| Swapchain.ChooseExtent | src/swapchain.cpp:73-84 | `currentExtent` unless its width is `UINT32_MAX`; otherwise each framebuffer dimension clamped into [minImageExtent, maxImageExtent], unchanged when already in range |
| Swapchain.ImageCount | src/swapchain.cpp:32-33 | `max(3, minImageCount)`, lowered to `maxImageCount` when that is non-zero and exceeded: never below `minImageCount` when the bounds are consistent, and never above a non-zero `maxImageCount` |
| Swapchain.ChooseSharing | src/swapchain.cpp:50-57 | concurrent between [graphics, present] exactly when the two families differ, exclusive otherwise |
| Swapchain.SharingMatchesQueues | src/swapchain.cpp:50-57 | the images are shared between exactly the families the device has queues from |
| Swapchain.SwapchainInfoOutcome | src/swapchain.cpp:13-57 | the three surface queries raise in order with their codes; reversed extent bounds are undefined only when `currentExtent.width` is `UINT32_MAX` and the clamp reads them; otherwise the create-info holds the chosen count, format, color space, extent, present mode and sharing, one layer, color-attachment usage and clipping |
| Swapchain.SwapchainInfo | src/swapchain.cpp:13-57 | the surface queries in order, then the create-info from their answers |
| Swapchain.ColorViews | src/swapchain.cpp:86-92 | one color view of one level per swapchain image, in image order |
| Swapchain.CreateLog | src/swapchain.cpp:59-63 | the swapchain is created, and logged, exactly when its create-info could be built |
| Swapchain.DepthLog | src/swapchain.cpp:116-120 | the depth image is logged exactly when a depth format is found and the image allocated |
| Swapchain.RebuildLog | src/swapchain.cpp:131-144 | what `recreate` logs after the wait and cleanup: the swapchain creation, the views and the depth image, up to the first step that raises |
| Swapchain.RebuildOrder | src/swapchain.cpp:131-144 | a rebuild logs a prefix of: swapchain created, views created, depth image created; it goes as far as the steps succeed |
| Swapchain.SwapchainContext.Create | src/swapchain.cpp:13-71 | raises at the first failing query or creation step with its code; the handle is replaced once creation succeeds; on success the images, extent and format come from the create-info and the surface |
| Swapchain.SwapchainContext.CreateImageViews | src/swapchain.cpp:86-92 | clears the views, then makes exactly one view per image in image order; a failure raises with the views made so far in place |
| Swapchain.SwapchainContext.CreateDepthResources | src/swapchain.cpp:116-120 | finds the depth format, replaces the depth image (freeing the old one), then makes its view; stops at the first step that raises |
| Swapchain.SwapchainContext.CreateDepthImage | src/swapchain.cpp:118-119 | the depth image of the swapchain extent with one level, then its depth view |
| Swapchain.SwapchainContext.AllocateDepthImage | src/swapchain.cpp:118 | `depthImage = VmaImage(...)`: fails exactly when the allocation fails, and otherwise frees the image held before |
| Swapchain.SwapchainContext.Cleanup | src/swapchain.cpp:146-149 | the views are cleared first, then the swapchain is released |
| Swapchain.SwapchainContext.Recreate | src/swapchain.cpp:131-144 | with a non-zero framebuffer: wait idle, cleanup, then create, views and depth, in that order; it succeeds exactly when every step does, and then the swapchain is presentable |
| Swapchain.SwapchainContext.Rebuild | src/swapchain.cpp:141-143 | create, views, depth, stopping at the first step that raises |
| Swapchain.SwapchainContext.CreateWithViews | src/swapchain.cpp:141-142 | create followed by views; it succeeds exactly when both do |
| Vma.Initial | src/vma_buffer.cpp:7-22 | a new buffer allocation holds `size` bytes |
| Vma.Allocator.Allocate | src/vma_buffer.cpp:17-21 | a successful allocation gets an id never live or freed before, owned by the new wrapper, mapped exactly when the MAPPED flag is set; a failed one changes nothing |
| Vma.Allocator.Free | src/vma_buffer.cpp:23-27 | only a live allocation can be freed; it moves from live to freed |
| Vma.Allocator.Store | src/buffers.cpp:21 | writing bytes into a live allocation (a `memcpy` through a mapping or a completed transfer) changes that allocation's contents and nothing else |
| Vma.Allocator.Transfer | src/vma_buffer.cpp:28-32 | a move hands a live allocation to another owner and changes nothing else |
| Vma.Allocator.Destroy | src/velo.cpp:86 | `vmaDestroyAllocator` requires that nothing is live |
| Vma.VmaBuffer.Empty | src/vma_buffer.cpp:23-27 | the default wrapper holds nothing, so its destructor frees nothing |
| Vma.VmaBuffer.Create | src/vma_buffer.cpp:7-22 | raises "Failed to create vma buffer" on any non-success result with the allocator unchanged; on success a fresh wrapper owns a new live allocation, and `mapped` is the allocation's mapped pointer |
| Vma.VmaBuffer.Move | src/vma_buffer.cpp:28-32 | takes buffer, allocation, mapped pointer and allocator, and nulls the source's buffer, allocation and mapping; ownership passes to the new wrapper and nothing is freed |
| Vma.VmaBuffer.MoveAssign | src/vma_buffer.cpp:33-48 | self-assignment changes nothing; otherwise it frees the target's old buffer (when non-null), takes the source's fields and nulls the source, so each allocation keeps one owner and none is freed twice |
| Vma.VmaBuffer.Adopt | src/vma_buffer.cpp:38-45 | the field transfer of move assignment: the target takes every field and the source is left empty |
| Vma.VmaBuffer.Destroy | src/vma_buffer.cpp:23-27 | frees the allocation only when the handle is non-null; an empty or moved-from wrapper leaves the allocator unchanged |
| Vma.VmaBuffer.Get | src/vma_buffer.cpp:50-60 | `get()`, `buffer()` and `operator VkBuffer` return the stored handle, which is non-null exactly when the wrapper owns an allocation |
| Vma.VmaBuffer.Allocation | src/vma_buffer.cpp:62-64 | returns the stored allocation |
| Vma.VmaBuffer.MappedData | src/vma_buffer.cpp:66-68 | returns the stored mapping, which is VMA's mapping of the owned allocation |
| Vma.VmaImage.Empty | src/vma_image.cpp:29-34 | the default wrapper holds nothing |
| Vma.VmaImage.Create | src/vma_image.cpp:6-27 | a 2D image of one layer with optimal tiling and exclusive sharing, raising on failure; on success a fresh wrapper owns a new allocation and `mapped` is its mapped pointer |
| Vma.VmaImage.Move | src/vma_image.cpp:35-40 | transfers image, allocation and mapping, and nulls them in the source |
| Vma.VmaImage.MoveAssign | src/vma_image.cpp:42-57 | self-assignment changes nothing; otherwise it frees the old image, takes the source's fields and nulls the source |
| Vma.VmaImage.Adopt | src/vma_image.cpp:47-54 | the field transfer of move assignment |
| Vma.VmaImage.Destroy | src/vma_image.cpp:29-34 | frees only when the image handle is non-null |
| Vma.VmaImage.Get | src/vma_image.cpp:59-64 | `get()` and `image()` return the stored handle |
| Vma.VmaImage.Allocation | src/vma_image.cpp:65-67 | returns the stored allocation |
| Vma.VmaImage.MappedData | src/vma_image.cpp:68-70 | returns VMA's mapping of the owned allocation |
| Vma.Held | src/vma_buffer.cpp:35-37 | the allocation a wrapper gives up on assignment: its own when the handle is non-null, none otherwise |
| Vma.TakeBuffer | src/vma_buffer.cpp:33-48 | `target = std::move(temp)` followed by the temporary's destructor: the target's old allocation is freed once and the target owns the temporary's |
| Vma.AssignNewBuffer | src/buffers.cpp:24 | `target = VmaBuffer(...)`: on success the old allocation is freed and a new one owned; on failure nothing changes |
| Vma.TakeImage | src/vma_image.cpp:42-57 | the image version of `TakeBuffer` |
| Vma.AssignNewImage | src/images.cpp:48 | `target = VmaImage(...)`: the old image is freed and a new one of the given size and levels owned |
| Vma.ResetBuffer | src/velo.cpp:77-79 | `target = VmaBuffer{}` frees what the target held and leaves it empty |
| Vma.ResetImage | src/velo.cpp:80-81 | `target = VmaImage{}` frees what the target held and leaves it empty |
| Resources.NothingLive | src/velo.cpp:77-86 | once every accounted wrapper is empty, no allocation is live, so `vmaDestroyAllocator` is safe |
| Resources.ReleaseBufferAt | src/velo.cpp:77 | resetting one buffer of the list frees exactly what it held and keeps the accounting |
| Resources.ReleaseImageAt | src/velo.cpp:80 | resetting one image of the list frees exactly what it held and keeps the accounting |
| Resources.DestroyBufferAt | src/velo.cpp:82 | destroying a wrapper as it leaves its vector frees its allocation; the rest stay accounted for |
| Resources.DestroyImageAt | src/velo.cpp:82 | destroying an image as it leaves its vector frees its allocation; the rest stay accounted for |
| Resources.DestroyLast | src/buffers.cpp:26 | the staging buffer's destructor at scope exit frees its allocation exactly |
| Resources.StoreAt | src/buffers.cpp:19-22 | a host write through a mapping changes only the bytes of that allocation |
| Resources.ReleaseBuffers | src/velo.cpp:83-85 | resetting a range of buffers in order frees only allocations that were live, each once |
| Resources.ReleaseImages | src/velo.cpp:80-81 | resetting a range of images in order frees only allocations that were live, each once |
| Resources.DestroyImagesFrom | src/velo.cpp:82 | `materialImages.clear()` destroys each image front to back, freeing only what was live, each once |
| Resources.CreateBuffer | src/vma_buffer.cpp:7-22 | a new buffer made while the accounting holds joins the end of the accounted buffers, with a never-used allocation |
| Resources.ReplaceBufferAt | src/buffers.cpp:24 | `buffers[j] = VmaBuffer(...)` keeps every live allocation accounted for, frees the old one once, and records the new creation info and initial bytes |
| Resources.ReplaceImageAt | src/images.cpp:48 | `images[j] = VmaImage(...)`: the same for an image |
| FrameScheduler.Slot | src/velo.cpp:136 | frame n uses slot (n−1) mod MAX_FRAMES_IN_FLIGHT, always below MAX_FRAMES_IN_FLIGHT |
| FrameScheduler.WaitValue | src/velo.cpp:571-575 | 0 while n ≤ MAX_FRAMES_IN_FLIGHT, otherwise n − MAX_FRAMES_IN_FLIGHT; always below n |
| FrameScheduler.NearFramesUseDifferentSlots | src/velo.cpp:136 | frames fewer than MAX_FRAMES_IN_FLIGHT apart use different slots |
| FrameScheduler.WaitTargetsPreviousUserOfSlot | src/velo.cpp:571-585 | the wait value is 0 exactly when no earlier frame used the slot; otherwise it is the last earlier frame that did, so a slot is never reused before its previous frame completes |
| FrameScheduler.TimelineSignalsAppend | src/velo.cpp:134-213 | timeline signals and recreations of concatenated effect logs add up |
| FrameScheduler.Consecutive | src/velo.cpp:135 | the values c+1, …, c+k |
| FrameScheduler.QuietCounts | src/velo.cpp:148-165 | uniform updates, acquires and recording neither signal the timeline nor recreate |
| FrameScheduler.SingleCounts | src/velo.cpp:134-213 | a host signal or a submit signals its value; a recreation counts once |
| FrameScheduler.SkipCounts | src/velo.cpp:141-146 | a skipped frame recreates once; it host-signals exactly its own value when the recreation succeeds, and signals nothing and raises the recreation's error otherwise |
| FrameScheduler.PresentedCounts | src/velo.cpp:165-212 | a submitted frame signals exactly its own value, once |
| FrameScheduler.AfterAcquireCounts | src/velo.cpp:149-212 | after the acquire, a call that returns normally has signalled exactly its own value, and one that raises has signalled it at most once |
| FrameScheduler.AfterWaitCounts | src/velo.cpp:141-212 | after the wait, a call that returns normally has signalled exactly its own value, and one that raises has signalled it at most once |
| FrameScheduler.FrameSignalsItsOwnValue | src/velo.cpp:134-213 | every call starts with the timeline wait for WaitValue(n); a call that does not raise signals the timeline exactly once, with n (by host signal or submit); any call recreates at most once; the same holds for the `Vorn` frame loop at `src/vorn.cpp:172-266` |
| FrameScheduler.FrameUsesOwnSlotAfterWait | src/velo.cpp:138-198 | the wait comes first and only once; the uniform update, acquire, recording and submit that follow all use this frame's slot, and the submit signals n |
| FrameScheduler.ResizeSkipsFrame | src/velo.cpp:141-146 | a pending resize clears the flag and recreates the swapchain, with no acquire, record, submit or present; then it host-signals n, or, when the recreation raises, the call raises that error before the signal; the same in `Vorn` at `src/vorn.cpp:189-199` |
| FrameScheduler.OutOfDateAcquire | src/velo.cpp:151-159 | an out-of-date acquire in `Velo` recreates without recording, submitting or presenting, then host-signals n, or raises the recreation's error before the signal; in `Vorn` it raises at the has-value check (src/vorn.cpp:203-216) without recreating |
| FrameScheduler.PresentDecision | src/velo.cpp:161-212 | an acquire that succeeded (or, in `Velo` only, was suboptimal) leads to wait, update, acquire, record, submit, present; the swapchain is recreated exactly on an out-of-date or suboptimal present or a `Velo` suboptimal acquire, and the call then raises exactly the recreation's error if it has one; otherwise a non-success present raises; the `Vorn` variant at `src/vorn.cpp:260-265` has no deferred suboptimal-acquire recreation |
| FrameScheduler.AcquireDecision | src/velo.cpp:149-163 | a call raises "Failed to acquire next swapchain image" with nothing recorded, submitted or recreated exactly when the acquire did not succeed and is not an out-of-date or suboptimal acquire in `Velo`; `Vorn` (`src/vorn.cpp:202-205`) raises for both |
| FrameScheduler.Frame | src/velo.cpp:134-213 | one call of `draw_frame` as its effects, error and new resize flag: the wait first, a failed wait raising; the `Vorn` revision at `src/vorn.cpp:172-266` |
| FrameScheduler.AfterWait | src/velo.cpp:141-212 | after the wait: a pending resize skips the frame, otherwise uniforms, acquire and the acquire reaction |
| FrameScheduler.AfterAcquire | src/velo.cpp:149-163 | the reaction to the acquire result in each revision |
| FrameScheduler.Skip | src/velo.cpp:141-146 | recreate, then host-signal n, or the recreation's error before the signal |
| FrameScheduler.Presented | src/velo.cpp:165-212 | record, submit n, present, then recreate (raising the recreation's error) or raise a failed present |
| FrameScheduler.Run | src/velo.cpp:134-213 | successive calls with resize callbacks between them, stopping at the first that raises |
| FrameScheduler.RunSignalsConsecutiveValues | src/velo.cpp:134-213 | a run of calls that raises nothing signals c+1, c+2, … on the timeline, one value per call, in order |
| FrameScheduler.CleanFrameSubmits | src/velo.cpp:168-198 | when wait, acquire, present and any recreation succeed, the call does not raise, and without a pending resize it submits n from its own slot without recreating |
| FrameScheduler.CleanRunNeverThrows | src/velo.cpp:134-213 | a run whose Vulkan calls and swapchain recreations all succeed never raises, whatever resizes happen in between |
| FrameScheduler.FiveFramesTwoInFlight | src/velo.cpp:134-213 | five clean calls with two frames in flight signal 1..5 and use slots 0,1,0,1,0 |
| FrameScheduler.ResizeBeforeThirdCall | src/velo.cpp:141-146 | a resize before the third call makes it wait for 1, recreate and host-signal 3; the fourth submits 4 from slot 1 |
| FrameScheduler.DeviceLog.Append | src/velo.cpp:134-213 | the log of device calls grows by exactly the given effects |
| FrameScheduler.SyncContext.Create | src/velo.cpp:552-569 | clears the present semaphores; raises "Failed to create timeline semaphore" exactly when the timeline creation has no value; otherwise makes a timeline starting at 0 and one present semaphore per swapchain image |
| FrameScheduler.SyncContext.WaitForFrame | src/velo.cpp:571-585 | waits for WaitValue(frameCount) and raises "Failed to wait for semaphore" exactly when the wait is not a success |
| FrameScheduler.SyncContext.SignalTimeline | src/velo.cpp:587-594 | a host signal of a value above the current one, which becomes the timeline's value |
| FrameScheduler.SyncContext.SubmitFrame | src/velo.cpp:168-198 | a submit signalling the timeline with a value above the current one |
| FrameScheduler.Renderer.NotifyResize | src/instance.cpp:25 | the framebuffer-size callback registered here sets `frameBuffResized` and nothing else (the callback body is in a header that is not part of this model) |
| FrameScheduler.Renderer.SkipFrame | src/velo.cpp:141-146 | clears the flag and recreates (bumping the swapchain generation); host-signals n when the recreation succeeds, and otherwise raises its error with the timeline untouched |
| FrameScheduler.Renderer.PresentImage | src/velo.cpp:165-212 | records, submits n and presents; recreates per the present result and then raises exactly the recreation's error, or raises a failed present |
| FrameScheduler.Renderer.AfterWaitStage | src/velo.cpp:141-212 | everything after the wait follows the frame function, including a recreation that raises on the resize, out-of-date or present path |
| FrameScheduler.Renderer.WaitAndRender | src/velo.cpp:138-212 | waits for the slot's previous frame, then renders; the effects and the error, including a failed recreation, are the frame function's |
| FrameScheduler.Renderer.DrawFrame | src/velo.cpp:134-213 | increments `frameCount` by exactly 1 and uses slot Slot(frameCount); the wait targets a value already scheduled; the effects, error (a failed recreation included) and resize flag are those of the frame function; without an error the timeline gains exactly the new `frameCount`; the same for the `Vorn` revision at `src/vorn.cpp:172-266` |
| Mesh.Uniq | src/velo.cpp:264-289 | the vertices in first-occurrence order: each appears once, and exactly the input's vertices appear |
| Mesh.VerticesOf | src/velo.cpp:266-281 | the vertex of each corner, in order |
| Mesh.SumPrefix | src/velo.cpp:458-484 | a prefix of the face sizes never sums to more than the whole |
| Mesh.SumSnoc | src/velo.cpp:458-484 | adding one more face to the prefix adds its size |
| Mesh.TruncRem | src/velo.cpp:453 | C++ `%` on `int` truncates: the remainder has the sign of the dividend and is below the divisor in magnitude |
| Mesh.FaceMaterial | src/velo.cpp:453-455 | `static_cast<int>(globalFaceIdx) % 4`, taken as the material index: the counter mod 4 while it fits in an `int`, and 0 for counters that wrap negative |
| Mesh.FaceMaterials | src/velo.cpp:447-486 | one material per face, face f getting FaceMaterial(f mod 2^32) |
| Mesh.NextFace | src/velo.cpp:485 | `++globalFaceIdx` keeps the counter equal to the number of faces seen, modulo 2^32 |
| Mesh.CounterStep | src/velo.cpp:485 | incrementing a wrapped counter is wrapping the incremented count |
| Mesh.DedupStep | src/velo.cpp:283-288 | one lookup-or-insert in `uniqueVertices` keeps the vertices duplicate-free in first-occurrence order, the map in step with them, and every index pointing at its corner's vertex |
| Mesh.AddCornersDeduped | src/velo.cpp:264-289 | deduplicating any corner list from an empty map keeps that invariant and leaves earlier vertices and indices alone |
| Mesh.AddLastCorner | src/velo.cpp:264-289 | the inductive step of `AddCornersDeduped` |
| Mesh.AddKeepsPrefix | src/velo.cpp:283-288 | a dedup step only appends |
| Mesh.VerticesOfSnoc | src/velo.cpp:266-281 | the vertices of a corner list split at its last corner |
| Mesh.LoadedFromEmpty | src/velo.cpp:264-289 | after deduplication the new vertices are Uniq of the corners' vertices, and `vertices[indices[k]]` is corner k's vertex |
| Mesh.NextCorner | src/velo.cpp:265-288 | deduplicating one more corner of a shape is one more dedup step |
| Mesh.ReadPastEnd | src/velo.cpp:459-460 | a face whose corners run past the shape's corners makes the shape out of range |
| Mesh.NextShape | src/velo.cpp:447-486 | once a shape's faces are in range, its face corners and face count join the totals |
| Mesh.Geometry.AddVertex | src/velo.cpp:283-288 | the loop body both loaders run for one corner: lookup or insert, then push the index; material indices untouched |
| Mesh.Geometry.LoadModel | src/velo.cpp:253-292 | a failed OBJ load raises with the loader's text and changes nothing; otherwise the vertices gain Uniq of all corners' vertices in first-occurrence order, each corner gains one index, and `vertices[indices[k]]` is corner k's vertex |
| Mesh.Geometry.LoadModelPerFaceMaterial | src/velo.cpp:435-489 | the same for the face corners, `idxOffset` restarting per shape; one material index per face from the global counter, which is not reset per shape; a face running past its shape's corners is undefined |
| Mesh.Geometry.AddShapeFaces | src/velo.cpp:451-486 | one shape's faces: in range exactly when its face sizes sum to at most its corner count, then one material per face and its corners deduplicated |
| Mesh.Geometry.FaceStep | src/velo.cpp:452-486 | one face: its material, its corners from `idxOffset`, then `idxOffset` and the counter advance |
| Mesh.Geometry.AddFace | src/velo.cpp:453-484 | one face's material and corners, failing exactly when they run past the shape |
| Mesh.Geometry.AddFaceCorners | src/velo.cpp:458-483 | `num_face_vertices[f]` corners from `idxOffset`, failing exactly when they run past the shape |
| DeviceObjects.FrameObjects.CreateCommandBuffer | src/device.cpp:100-113 | clears the command buffers, then holds exactly MAX_FRAMES_IN_FLIGHT primary buffers, or raises "Failed to allocate cmd buffer" with none |
| DeviceObjects.FrameObjects.CreateSyncObjects | src/device.cpp:115-146 | with both binary vectors empty on entry: one render-done semaphore per swapchain image, one present semaphore per frame in flight, then exactly one timeline semaphore starting at 0, all distinct; the first failure raises with its own message |
| DeviceObjects.FrameObjects.CreateBinaries | src/device.cpp:118-132 | one loop of binary semaphores: appends `count` new distinct semaphores, or as many as succeed before the first failure, which raises |
| DeviceObjects.FreshId | src/device.cpp:123 | a semaphore with an unused id keeps the vectors duplicate-free |
| DeviceObjects.FirstMissing | src/device.cpp:120 | the first failed creation is the one that raises |
| DeviceObjects.NoneMissing | src/device.cpp:118-132 | with no failure every creation succeeds |
| DeviceObjects.RecreateSwapchain | src/device.cpp:147-164 | with a non-zero framebuffer: idle the device, clear the views, release the swapchain, then create the swapchain and views, with no depth resources; it succeeds exactly when both steps do |
| Legacy.FrameCommands | src/buffers.cpp:90-138 | begin, barrier to ColorAttachment, beginRendering on the image's view, the binds with 16-bit indices and push constants with objIdx = frameIdx, one drawIndexed(indices.size(), 1) inside the rendering scope, endRendering, barrier to PresentSrc, end; the barriers touch only this image |
| Legacy.TransitionImageLayout | src/velo.cpp:98-132 | records one barrier with the given layouts and masks on mip 0 and one layer of the image; the `Vorn` copy at `src/vorn.cpp:137-170` is the same |
| Legacy.RecordCommandBuffer | src/buffers.cpp:90-138 | the frame's command buffer ends up holding exactly `FrameCommands` for the chosen image and view; the `Vorn` copy at `src/vorn.cpp:86-135` records the same trace |
| Legacy.ExecuteAllAppend | src/buffers.cpp:90-138 | executing two batches in order is executing their concatenation |
| Legacy.ExecuteInert | src/buffers.cpp:117-128 | binds, draws and rendering scopes change neither memory nor layouts |
| Legacy.RecordedFrameLayouts | src/buffers.cpp:90-138 | executing the recorded frame moves the image to ColorAttachmentOptimal before the draw and to PresentSrc at the end, and changes no memory and no other image |
| Legacy.OpeningLayouts | src/buffers.cpp:92-117 | the opening moves the image into ColorAttachmentOptimal |
| Legacy.ClosingLayouts | src/buffers.cpp:129-138 | the closing moves the image into PresentSrc |
| Legacy.UniformInfo | src/buffers.cpp:45-47 | each uniform buffer is a uniform-usage, persistently mapped buffer of sizeof(UniformBufferObject) bytes |
| Legacy.UniformsSnoc | src/buffers.cpp:48-67 | pushing buffer i keeps the buffers, mapped pointers and descriptor writes (binding 0, element i, the whole block) in step |
| Legacy.InfosSnoc | src/buffers.cpp:47 | recording a new uniform allocation keeps the earlier ones recorded |
| Legacy.CreateUniformBuffersFrom | src/buffers.cpp:41-68 | makes exactly MAX_FRAMES_IN_FLIGHT uniform buffers, `mapped[i]` being buffer i's mapping and buffer i written to binding 0 element i; the first failure raises with the buffers made so far in place; every new allocation is accounted for |
| Legacy.PushUniform | src/buffers.cpp:47-67 | one loop iteration: a new mapped uniform buffer is pushed with its pointer and descriptor write, or the failure raises with nothing changed |
| Legacy.CreateUniform | src/buffers.cpp:47 | the constructor call with the uniform creation info: a fresh, mapped, accounted buffer, or an error with the allocator unchanged |
| Legacy.Succeeds | src/buffers.cpp:46 | one more successful iteration extends the run of successes |
| Legacy.FirstFailure | src/buffers.cpp:46-47 | the first failing creation is the one that raises |
| Legacy.NoFailure | src/buffers.cpp:46-68 | with no failing creation the loop completes |
| Legacy.UniformAppended | src/buffers.cpp:52 | pushing a new wrapper keeps the list duplicate-free |
| VeloApp.OneTimeSubmit | src/gpu_context.cpp:26-54 | a one-time submission is six commands with the recorded command third |
| VeloApp.StageBytes | src/buffers.cpp:17-22 | a host-visible transfer-source staging buffer of exactly the data's size, filled with the data through its mapping |
| VeloApp.TransferTexture | src/images.cpp:51-53 | the three submissions in order: Undefined→TransferDst, copy, TransferDst→ShaderReadOnly; the image ends in ShaderReadOnlyOptimal holding the staged bytes, and any failure raises with the allocate error |
| VeloApp.CopyIntoTexture | src/images.cpp:51-52 | the first two submissions: the image reaches TransferDstOptimal and receives the staged bytes |
| VeloApp.CreateTexture | src/images.cpp:37-53 | staging of width·height·4 bytes, the texture image of the pixels' size with one level, then the upload; the staging buffer never outlives the call, and on full success the texture holds exactly the pixels in ShaderReadOnlyOptimal |
| VeloApp.UploadAndRelease | src/images.cpp:48-54 | the texture is made and filled, then the staging buffer is destroyed on every path |
| VeloApp.StagingReleased | src/images.cpp:54 | freeing the fresh staging allocation leaves live only what was live before plus the texture |
| VeloApp.UploadTexture | src/images.cpp:48-53 | `textureImage = VmaImage(...)` frees the old texture once, then the upload from staging |
| VeloApp.FillTexture | src/images.cpp:51-53 | the upload into the new texture leaves it holding the pixels in ShaderReadOnlyOptimal |
| VeloApp.CopyIntoNew | src/buffers.cpp:24-25 | the device-local destination replaces the old buffer, which is freed once, and receives the staged bytes by one copy submission |
| VeloApp.FillBuffer | src/buffers.cpp:25 | `copy_buffer(staging, dst, size)` leaves the destination equal to the staged bytes |
| VeloApp.UploadAndReleaseBuffer | src/buffers.cpp:24-26 | the destination is made and filled, then the staging buffer is destroyed on every path |
| VeloApp.CreateDeviceLocal | src/buffers.cpp:15-26 | staging then destination of the same size, the whole range copied; staging carries TransferSrc, the destination TransferDst plus its own usage; the staging buffer never outlives the call |
| VeloApp.ReleaseMembers | src/velo.cpp:77-82 | the member wrappers are reset and the material images destroyed, each allocation freed once |
| VeloApp.ReleaseFrames | src/velo.cpp:83-85 | each frame's uniform buffer is reset |
| VeloApp.ReleaseAll | src/velo.cpp:77-86 | every wrapper is released before `vmaDestroyAllocator`; everything live is freed exactly once |
| VeloApp.Velo.CreateTextureImage | src/images.cpp:30-54 | raises "Failed to load pixels from texture" when the pixels fail to load, changing nothing; otherwise `mipLvls` is 1, and on success the texture holds the pixels in ShaderReadOnlyOptimal |
| VeloApp.Velo.CreateIndexBuffer | src/buffers.cpp:15-26 | the index buffer ends up holding exactly the index bytes with Index and TransferDst usage; it fails exactly when a step fails, and a failed staging or device-local creation changes nothing |
| VeloApp.Velo.CreateVertexBuffer | src/buffers.cpp:28-39 | the same for the vertex buffer with Vertex and TransferDst usage |
| VeloApp.Velo.Cleanup | src/velo.cpp:71-96 | swapchain cleanup first; then every buffer and image is reset and the material images cleared before `vmaDestroyAllocator`, so every allocation live at the start is freed exactly once; then surface, window and GLFW in that order |
| VeloApp.Velo.ReleaseResources | src/velo.cpp:77-86 | the resets and the allocator destruction, with nothing live left |
| VornApp.Vorn.CreateVertexBuffer | src/vorn.cpp:283-294 | the vertex buffer holds exactly the vertex bytes with Vertex and TransferDst usage |
| VornApp.Vorn.CreateIndexBuffer | src/vorn.cpp:307-318 | the index buffer holds exactly the 16-bit index bytes with Index and TransferDst usage |
| VornApp.Vorn.CreateUniformBuffers | src/vorn.cpp:357-386 | the old uniform buffers are freed; exactly MAX_FRAMES_IN_FLIGHT new ones are made, buffer i written to binding 0 element i; the first failure raises |
| VornApp.RebuildUniforms | src/vorn.cpp:359-385 | clear, then the creation loop |
| VornApp.ClearUniforms | src/vorn.cpp:359 | `uniformBuffs.clear()` frees each old uniform buffer once |
| VornApp.ReleaseTailFirst | src/vorn.cpp:72-75 | the uniform buffers, then index and vertex, are reset before the allocator is destroyed with nothing live |
| VornApp.Vorn.Cleanup | src/vorn.cpp:66-84 | swapchain cleanup, then uniformBuffs, indexBuff and vertexBuff released before `vmaDestroyAllocator`, every allocation freed once, then surface, window and GLFW |
| VornApp.Vorn.ReleaseResources | src/vorn.cpp:72-75 | the releases and the allocator destruction |

## Left out

- Vulkan, VMA and GLFW themselves are not modelled. Each call's result, handle or mapping address is an input. GPU execution is synchronous: a submitted batch takes effect at the queue-idle wait, and semaphores are counters and logs, not concurrency.
- Floating point is not modelled: `update_uniform_buffers` (glm matrices, clock time), the texcoord flip, the colour-to-byte conversion, sampler parameters, viewport floats and the clear colour. Vertices are an opaque type with equality.
- `process_input`, `create_material_images`, `create_texture_image_view`'s descriptor write, the sampler, the descriptor set layout, pool and sets, the pipelines (`src/graphics_pipeline.cpp`, `src/graphicsPipeline.cpp`), `src/infos.cpp` and `src/main.cpp` are not part of this model. They fill constant structs, poll input or do file I/O.
- Instance, surface, logical-device and VMA-allocator creation are foreign calls and are not modelled. Their outputs (queue indices, the allocator) are parameters.
- The header that declares `MAX_FRAMES_IN_FLIGHT`, `WIDTH`, `HEIGHT`, the validation layers, `enableValidationLayers`, `Vertex` and `UniformBufferObject` is not part of this model. These are parameters: `maxFrames`, `validation`, `uboSize`, and the vertex type `V`.
- The OBJ loader (`tinyobj`) and the image loader (`stbi_load`) are inputs: the shapes they read, or `None` with the loader's message.
- Index and vertex data reach the buffers as the byte sequences the vectors occupy; their layout is not modelled.
- `Mesh.Geometry.LoadModel`: stores indices as unbounded naturals, so it does not model the `uint32_t` cast of `vertices.size()` wrapping beyond 2^32 vertices.
- `VeloApp.CreateTexture`: the source computes `texWidth * texHeight` in `int`, converts it to `vk::DeviceSize` and only then multiplies by 4; the overflow of that `int` product for huge images is not modelled.
- The `glfwWaitEvents` loop that waits for a non-zero framebuffer in `recreate` and `recreate_swapchain` is a precondition (`fbWidth != 0 && fbHeight != 0`).
- The C++ `assert` at the head of `create_sync_objects` is a precondition of `DeviceObjects.FrameObjects.CreateSyncObjects`.
- `FrameScheduler.SyncContext.Create`: `presentSems` are created with `.value` and no check, so a failed binary-semaphore creation is not modelled.
- `VornApp.Vorn.CreateVertexBuffer`: `Vorn::copy_buffer` uses `.value.front()` without checking the allocation; the model raises the allocate error where the source's behaviour is undefined.
- `VornApp.Vorn.CreateIndexBuffer`: the same unchecked allocation in `Vorn::copy_buffer`.
- `Transfers.CopyBuffer`: for `Vorn::copy_buffer` (`src/vorn.cpp:268-281`), `.value.front()` is read without checking the allocation; the model raises ALLOCATE_FAILED there.
- `Swapchain.ChooseExtent`: the negative-`int` to `uint32_t` conversion is modelled, but `std::clamp` with reversed bounds is not. The bounds are read only when `currentExtent.width` is `UINT32_MAX`; `Swapchain.SwapchainInfo` and `Swapchain.SwapchainInfoOutcome` report that case as undefined.
- `Vk.VkResult.HasValue`: `has_value()` is defined in the `vulkan-hpp` header, which is not part of this model. The model reads it as "the code is `VK_SUCCESS`". That is the reading under which `Velo`'s `&& !recreate` guard (`src/velo.cpp:161`) is not dead code.
- `Legacy.CreateUniformBuffersFrom`: states that every new wrapper is accounted for and distinct, but not that each is a freshly allocated object.
- Uniform buffer mappings are addresses given as inputs; what is written through them each frame is not modelled.
