/** The renderer object `Velo`: the VMA-backed resources it owns, the
    staged uploads that fill them, and the order in which `cleanup`
    releases them. Pixel, index and vertex data arrive as bytes; what the
    VMA and device calls return is a parameter. */
module VeloApp {
  import opened Outcomes
  import opened Vk
  import opened Commands
  import opened Images
  import opened Search
  import Vma
  import Resources
  import Swapchain
  import Transfers

  /** What `stbi_load` hands back with `STBI_rgb_alpha`: four bytes per
      texel, row after row. */
  datatype Pixels = Pixels(width: nat, height: nat, bytes: seq<bv8>)

  const TEXTURE_LOAD_FAILED := "Failed to load pixels from texture"

  /** What the calls of one staged upload return: the staging buffer's
      creation, the destination's creation, and the allocation of the
      one-time command buffer of each submission, in order. */
  datatype UploadResults = UploadResults(stagingResult: VkResult, stagingAddress: nat,
                                         targetResult: VkResult, targetAddress: nat,
                                         commandResults: seq<VkResult>)
  {
    /** Every call succeeds, with `submissions` one-time submissions. */
    predicate AllSucceed(submissions: nat) {
      && stagingResult == Success && targetResult == Success
      && |commandResults| >= submissions
      && forall k :: 0 <= k < submissions ==> commandResults[k].HasValue()
    }
  }

  /** One command recorded into a one-time command buffer, submitted, and
      waited for. */
  function OneTimeSubmit(c: Command): (r: seq<Command>)
    ensures |r| == 6 && r[2] == c
  {
    [AllocateCommandBuffer, Begin(true), c, End, Submit, WaitIdle]
  }

  /** The three submissions of a texture upload from `staging` into
      `image`: to `TransferDstOptimal`, the copy, then to
      `ShaderReadOnlyOptimal`. */
  function TextureUploadTrace(staging: nat, image: nat, width: nat, height: nat, mips: nat): seq<Command> {
    OneTimeSubmit(PipelineBarrier(TextureBarrier(image, LayoutUndefined, TransferDstOptimal, mips,
                                                 Masks({}, {TransferWrite}, {TopOfPipe}, {Transfer}))))
    + OneTimeSubmit(Command.CopyBufferToImage(staging, image, TransferDstOptimal, TextureRegion(width, height)))
    + OneTimeSubmit(PipelineBarrier(TextureBarrier(image, TransferDstOptimal, ShaderReadOnlyOptimal, mips,
                                                   Masks({TransferWrite}, {ShaderRead}, {Transfer}, {FragmentShader}))))
  }

  /** The steps of `cleanup` besides resetting the wrappers. */
  datatype TeardownEvent = SwapchainCleanedUp | AllocatorDestroyed | SurfaceCleared | WindowDestroyed | GlfwTerminated

  /** `n` new empty buffers, each a different object. */
  method EmptyBuffers(n: nat) returns (bs: seq<Vma.VmaBuffer>)
    ensures |bs| == n && Distinct(bs)
    ensures forall k :: 0 <= k < n ==> fresh(bs[k]) && bs[k].Valid() && bs[k].vmaAllocator == null && bs[k].buffer == 0
  {
    bs := [];
    for i := 0 to n
      invariant |bs| == i && Distinct(bs)
      invariant forall k :: 0 <= k < i ==> fresh(bs[k]) && bs[k].Valid() && bs[k].vmaAllocator == null && bs[k].buffer == 0
    {
      var b := new Vma.VmaBuffer.Empty();
      bs := bs + [b];
    }
  }

  /** Wrappers that hold nothing are accounted for by an allocator with
      nothing live. */
  lemma EmptyAccounts(allocator: Vma.Allocator, buffers: seq<Vma.VmaBuffer>, images: seq<Vma.VmaImage>)
    requires allocator.Valid() && allocator.live == {}
    requires forall k :: 0 <= k < |buffers| ==> buffers[k].Valid() && buffers[k].vmaAllocator == null
    requires forall k :: 0 <= k < |images| ==> images[k].Valid() && images[k].vmaAllocator == null
    ensures Resources.Accounts(allocator, buffers, images)
  {
  }

  /** The members of the renderer are reset: the first `memberBuffers`
      buffers, then the first `memberImages` images, in order; then the
      remaining images are destroyed as their vector is cleared. */
  method ReleaseMembers(allocator: Vma.Allocator, buffers: seq<Vma.VmaBuffer>, images: seq<Vma.VmaImage>,
                        memberBuffers: nat, memberImages: nat)
    requires Resources.Accounts(allocator, buffers, images)
    requires Distinct(buffers) && Distinct(images)
    requires memberBuffers <= |buffers| && memberImages <= |images|
    modifies buffers[0..memberBuffers], images[0..memberImages], allocator
    ensures Resources.Accounts(allocator, buffers, images[..memberImages])
    ensures forall k :: 0 <= k < memberBuffers ==> buffers[k].buffer == 0
    ensures forall k :: 0 <= k < memberImages ==> images[k].image == 0
    ensures Resources.ReleasedSince(allocator, old(allocator.live), old(allocator.freed))
    ensures allocator.destroyed == old(allocator.destroyed)
  {
    ghost var live0, freed0 := allocator.live, allocator.freed;
    Resources.ReleaseBuffers(allocator, buffers, images, 0, memberBuffers);
    ghost var live1, freed1 := allocator.live, allocator.freed;
    assert forall k :: 0 <= k < memberBuffers ==> buffers[k] as object !in images[0..memberImages];
    Resources.ReleaseImages(allocator, buffers, images, 0, memberImages);
    ghost var live2, freed2 := allocator.live, allocator.freed;
    Resources.DestroyImagesFrom(allocator, buffers, images, memberImages);
    Resources.ReleasedTwice(live0, freed0, live1, freed1, live2, freed2);
    Resources.ReleasedTwice(live0, freed0, live2, freed2, allocator.live, allocator.freed);
  }

  /** The buffers after the first `memberBuffers`, already reset, are
      reset in turn; the images, already empty, stay so. */
  method ReleaseFrames(allocator: Vma.Allocator, buffers: seq<Vma.VmaBuffer>, members: seq<Vma.VmaImage>,
                       memberBuffers: nat)
    requires Resources.Accounts(allocator, buffers, members)
    requires Distinct(buffers) && memberBuffers <= |buffers|
    requires forall k :: 0 <= k < memberBuffers ==> buffers[k].buffer == 0
    requires forall k :: 0 <= k < |members| ==> members[k].image == 0
    modifies buffers[memberBuffers..|buffers|], allocator
    ensures Resources.Accounts(allocator, buffers, members)
    ensures forall k :: 0 <= k < |buffers| ==> buffers[k].buffer == 0
    ensures forall k :: 0 <= k < |members| ==> members[k].image == 0
    ensures Resources.ReleasedSince(allocator, old(allocator.live), old(allocator.freed))
    ensures allocator.destroyed == old(allocator.destroyed)
  {
    var rest := buffers[memberBuffers..|buffers|];
    assert forall k :: 0 <= k < memberBuffers ==> buffers[k] !in rest;
    assert forall k :: 0 <= k < |members| ==> members[k] as object !in rest;
    Resources.ReleaseBuffers(allocator, buffers, members, memberBuffers, |buffers|);
    assert forall k :: 0 <= k < memberBuffers ==> buffers[k].buffer == 0;
  }

  /** The resetting part of `cleanup`, on the renderer's buffers and
      images: the members are reset and the image vector cleared, then the
      remaining buffers are reset, and the allocator, with nothing left
      live, is destroyed. */
  method ReleaseAll(allocator: Vma.Allocator, buffers: seq<Vma.VmaBuffer>, images: seq<Vma.VmaImage>,
                    memberBuffers: nat, memberImages: nat)
    requires Resources.Accounts(allocator, buffers, images) && !allocator.destroyed
    requires Distinct(buffers) && Distinct(images)
    requires memberBuffers <= |buffers| && memberImages <= |images|
    modifies buffers, images[..memberImages], allocator
    ensures allocator.destroyed && allocator.live == {}
    ensures allocator.freed == old(allocator.freed) + old(allocator.live)
    ensures forall k :: 0 <= k < |buffers| ==> buffers[k].buffer == 0
    ensures forall k :: 0 <= k < memberImages ==> images[k].image == 0
  {
    ghost var live0, freed0 := allocator.live, allocator.freed;
    ReleaseMembers(allocator, buffers, images, memberBuffers, memberImages);
    ghost var live1, freed1 := allocator.live, allocator.freed;
    ReleaseFrames(allocator, buffers, images[..memberImages], memberBuffers);
    Resources.NothingLive(allocator, buffers, images[..memberImages]);
    Resources.ReleasedTwice(live0, freed0, live1, freed1, allocator.live, allocator.freed);
    Resources.ReleasedEverything(live0, freed0, allocator.live, allocator.freed);
    allocator.Destroy();
  }

  /** The image usage of the texture: copy destination and source, sampled. */
  const TEXTURE_USAGE: bv32 := IMAGE_USAGE_TRANSFER_DST | IMAGE_USAGE_TRANSFER_SRC | IMAGE_USAGE_SAMPLED

  /** A staging buffer holding `bytes`: `VmaBuffer(allocator, |bytes|,
      eTransferSrc, VMA_MEMORY_USAGE_AUTO, HOST_ACCESS_SEQUENTIAL_WRITE)`
      followed by the `memcpy` of the bytes through its mapping. */
  method StageBytes(allocator: Vma.Allocator, buffers: seq<Vma.VmaBuffer>, images: seq<Vma.VmaImage>,
                    bytes: seq<bv8>, res: VkResult, address: nat)
    returns (r: Result<Vma.VmaBuffer>)
    requires Resources.Accounts(allocator, buffers, images) && !allocator.destroyed && address != 0
    modifies allocator
    ensures !allocator.destroyed
    ensures res == Success <==> r.Ok?
    ensures r.Err? ==> r.error == VkError(Vma.CREATE_FAILED, res.Name()) && unchanged(allocator)
    ensures r.Ok? ==> && fresh(r.value) && r.value.buffer != 0 && r.value.buffer == r.value.allocation
                      && Resources.Accounts(allocator, buffers + [r.value], images)
    ensures r.Ok? ==> && r.value.allocation !in old(allocator.live) + old(allocator.freed)
                      && allocator.live == old(allocator.live) + {r.value.allocation}
                      && allocator.freed == old(allocator.freed)
                      && allocator.contents == old(allocator.contents)[r.value.allocation := bytes]
                      && allocator.info[r.value.allocation]
                           == Vma.BufferInfo(|bytes|, BUFFER_USAGE_TRANSFER_SRC, VMA_MEMORY_USAGE_AUTO,
                                             VMA_HOST_ACCESS_SEQUENTIAL_WRITE)
  {
    r := Resources.CreateBuffer(allocator, buffers, images, |bytes|, BUFFER_USAGE_TRANSFER_SRC,
                                VMA_MEMORY_USAGE_AUTO, VMA_HOST_ACCESS_SEQUENTIAL_WRITE, res, address);
    if r.Err? {
      return;
    }
    var staging := r.value;
    assert (buffers + [staging])[|buffers|] == staging;
    Resources.StoreAt(allocator, buffers + [staging], images, staging.allocation, bytes);
  }

  /** The three one-time submissions of `create_texture_image` from the
      staging buffer into the texture, each raising when its command
      buffer cannot be allocated. None of them touches a wrapper or the
      allocator's ledger. */
  method TransferTexture(gpu: GpuContext, staging: nat, image: nat, width: nat, height: nat, mips: nat,
                         results: seq<VkResult>)
    returns (err: Option<Error>)
    requires gpu.Valid() && !gpu.recording && |results| >= 3
    modifies gpu, gpu.allocator
    ensures gpu.Valid() && !gpu.recording && gpu.allocator.Ledger() == old(gpu.allocator.Ledger())
    ensures err.None? <==> results[0].HasValue() && results[1].HasValue() && results[2].HasValue()
    ensures err.Some? ==> err.value.VkError? && err.value.msg == ALLOCATE_FAILED
    ensures err.None? ==> && gpu.trace == old(gpu.trace) + TextureUploadTrace(staging, image, width, height, mips)
                          && gpu.layouts == old(gpu.layouts)[image := ShaderReadOnlyOptimal]
    ensures err.None? && staging in old(gpu.allocator.contents) && image in old(gpu.allocator.contents)
            && width * height * TEXEL_BYTES <= |old(gpu.allocator.contents)[staging]| ==>
              gpu.allocator.contents
                == old(gpu.allocator.contents)[image := old(gpu.allocator.contents)[staging][..width * height * TEXEL_BYTES]]
  {
    err := CopyIntoTexture(gpu, staging, image, width, height, mips, results[0], results[1]);
    if err.Some? {
      return;
    }
    err := Transfers.TransitionImageTextureLayout(gpu, image, TransferDstOptimal, ShaderReadOnlyOptimal, mips, results[2]);
  }

  /** The first two submissions of the upload: the texture is moved to
      `TRANSFER_DST_OPTIMAL` and the staging buffer copied into it. */
  method CopyIntoTexture(gpu: GpuContext, staging: nat, image: nat, width: nat, height: nat, mips: nat,
                         first: VkResult, second: VkResult)
    returns (err: Option<Error>)
    requires gpu.Valid() && !gpu.recording
    modifies gpu, gpu.allocator
    ensures gpu.Valid() && !gpu.recording && gpu.allocator.Ledger() == old(gpu.allocator.Ledger())
    ensures err.None? <==> first.HasValue() && second.HasValue()
    ensures err.Some? ==> err.value.VkError? && err.value.msg == ALLOCATE_FAILED
    ensures err.None? ==> && gpu.trace == old(gpu.trace) + TextureUploadTrace(staging, image, width, height, mips)[..12]
                          && gpu.layouts == old(gpu.layouts)[image := TransferDstOptimal]
    ensures err.None? && staging in old(gpu.allocator.contents) && image in old(gpu.allocator.contents)
            && width * height * TEXEL_BYTES <= |old(gpu.allocator.contents)[staging]| ==>
              gpu.allocator.contents
                == old(gpu.allocator.contents)[image := old(gpu.allocator.contents)[staging][..width * height * TEXEL_BYTES]]
  {
    err := Transfers.TransitionImageTextureLayout(gpu, image, LayoutUndefined, TransferDstOptimal, mips, first);
    if err.Some? {
      return;
    }
    err := Transfers.CopyBufferToImage(gpu, staging, image, width, height, second);
  }

  /** `create_texture_image` once the pixels are loaded: the staging buffer,
      the texture (`images[0]`), the upload, and the staging buffer's
      destructor, which runs on every path, a raised error included. */
  method CreateTexture(gpu: GpuContext, buffers: seq<Vma.VmaBuffer>, images: seq<Vma.VmaImage>,
                       p: Pixels, results: UploadResults)
    returns (err: Option<Error>)
    requires gpu.Valid() && !gpu.recording && !gpu.allocator.destroyed
    requires Resources.Accounts(gpu.allocator, buffers, images) && |images| > 0
    requires |p.bytes| == p.width * p.height * TEXEL_BYTES
    requires results.stagingAddress != 0 && results.targetAddress != 0 && |results.commandResults| >= 3
    modifies gpu, gpu.allocator, images[0]
    ensures gpu.Valid() && !gpu.recording && !gpu.allocator.destroyed
    ensures Resources.Accounts(gpu.allocator, buffers, images)
    // the staging buffer never outlives the call
    ensures gpu.allocator.live <= old(gpu.allocator.live) + {images[0].allocation}
    ensures results.stagingResult != Success ==>
              && err == Some(VkError(Vma.CREATE_FAILED, results.stagingResult.Name()))
              && gpu.allocator.live == old(gpu.allocator.live) && gpu.trace == old(gpu.trace)
              && images[0].image == old(images[0].image)
    ensures results.stagingResult == Success && results.targetResult != Success ==>
              && err == Some(VkError(Vma.CREATE_FAILED, results.targetResult.Name()))
              && gpu.allocator.live == old(gpu.allocator.live) && gpu.trace == old(gpu.trace)
              && images[0].image == old(images[0].image)
    ensures results.stagingResult == Success && results.targetResult == Success ==>
              && images[0].image != 0
              && images[0].allocation !in old(gpu.allocator.live) + old(gpu.allocator.freed)
              && gpu.allocator.info[images[0].allocation]
                   == Vma.ImageInfo(p.width, p.height, 1, 1, 1, Optimal, TEXTURE_USAGE, R8G8B8A8Srgb,
                                    VMA_MEMORY_USAGE_AUTO, VMA_DEDICATED_MEMORY)
    ensures results.AllSucceed(3) ==>
              && err.None?
              && gpu.allocator.contents[images[0].allocation] == p.bytes
              && images[0].image in gpu.layouts && gpu.layouts[images[0].image] == ShaderReadOnlyOptimal
              && exists s :: s !in old(gpu.allocator.live) + old(gpu.allocator.freed)
                   && gpu.trace == old(gpu.trace) + TextureUploadTrace(s, images[0].image, p.width, p.height, 1)
  {
    var staged := StageBytes(gpu.allocator, buffers, images, p.bytes, results.stagingResult, results.stagingAddress);
    if staged.Err? {
      return Some(staged.error);
    }
    err := UploadAndRelease(gpu, buffers, images, staged.value, p, results,
                            old(gpu.allocator.live), old(gpu.allocator.freed), old(gpu.trace));
  }

  /** `create_texture_image` once the staging buffer `staging` holds the
      pixels, the allocator having had `live0` live and `freed0` freed and
      the queue trace having been `trace0` before it was made. */
  method UploadAndRelease(gpu: GpuContext, buffers: seq<Vma.VmaBuffer>, images: seq<Vma.VmaImage>,
                          staging: Vma.VmaBuffer, p: Pixels, results: UploadResults,
                          ghost live0: set<nat>, ghost freed0: set<nat>, ghost trace0: seq<Command>)
    returns (err: Option<Error>)
    requires gpu.Valid() && !gpu.recording && !gpu.allocator.destroyed && gpu.trace == trace0
    requires Resources.Accounts(gpu.allocator, buffers + [staging], images) && |images| > 0
    requires staging !in buffers && staging.buffer != 0 && staging.buffer == staging.allocation
    requires staging.allocation !in live0 + freed0 && gpu.allocator.live == live0 + {staging.allocation}
    requires gpu.allocator.freed == freed0 && gpu.allocator.contents[staging.allocation] == p.bytes
    requires |p.bytes| == p.width * p.height * TEXEL_BYTES
    requires results.stagingResult == Success && results.targetAddress != 0 && |results.commandResults| >= 3
    modifies gpu, gpu.allocator, images[0]
    ensures gpu.Valid() && !gpu.recording && !gpu.allocator.destroyed
    ensures Resources.Accounts(gpu.allocator, buffers, images)
    ensures gpu.allocator.live <= live0 + {images[0].allocation}
    ensures results.targetResult != Success ==>
              && err == Some(VkError(Vma.CREATE_FAILED, results.targetResult.Name()))
              && gpu.allocator.live == live0 && gpu.trace == trace0
              && images[0].image == old(images[0].image)
    ensures results.targetResult == Success ==>
              && images[0].image != 0
              && images[0].allocation !in live0 + freed0
              && gpu.allocator.info[images[0].allocation]
                   == Vma.ImageInfo(p.width, p.height, 1, 1, 1, Optimal, TEXTURE_USAGE, R8G8B8A8Srgb,
                                    VMA_MEMORY_USAGE_AUTO, VMA_DEDICATED_MEMORY)
    ensures results.AllSucceed(3) ==>
              && err.None?
              && gpu.allocator.contents[images[0].allocation] == p.bytes
              && images[0].image in gpu.layouts && gpu.layouts[images[0].image] == ShaderReadOnlyOptimal
              && exists s :: s !in live0 + freed0
                   && gpu.trace == trace0 + TextureUploadTrace(s, images[0].image, p.width, p.height, 1)
  {
    err := UploadTexture(gpu, buffers + [staging], images, staging, p, results);
    ghost var live2 := gpu.allocator.live;
    Resources.DestroyLast(gpu.allocator, buffers, images, staging);
    StagingReleased(live0, staging.allocation, live2, images[0].allocation, gpu.allocator.live);
  }

  /** Freeing the staging allocation `s`, fresh when the upload began,
      leaves live only what was live before and the texture `t`. */
  lemma StagingReleased(live0: set<nat>, s: nat, live1: set<nat>, t: nat, live2: set<nat>)
    requires s !in live0 && live1 <= live0 + {s, t} && live2 == live1 - {s}
    ensures live2 <= live0 + {t}
    ensures live1 == live0 + {s} ==> live2 == live0
  {
  }

  /** `textureImage = VmaImage(...)` of the pixels' size with one level,
      then the upload from `staging`, the last buffer of the list. */
  method UploadTexture(gpu: GpuContext, buffers: seq<Vma.VmaBuffer>, images: seq<Vma.VmaImage>,
                       staging: Vma.VmaBuffer, p: Pixels, results: UploadResults)
    returns (err: Option<Error>)
    requires gpu.Valid() && !gpu.recording && !gpu.allocator.destroyed
    requires Resources.Accounts(gpu.allocator, buffers, images) && |images| > 0
    requires |buffers| > 0 && buffers[|buffers| - 1] == staging && staging.buffer != 0
    requires staging.allocation in gpu.allocator.contents && gpu.allocator.contents[staging.allocation] == p.bytes
    requires |p.bytes| == p.width * p.height * TEXEL_BYTES
    requires results.targetAddress != 0 && |results.commandResults| >= 3
    modifies gpu, gpu.allocator, images[0]
    ensures gpu.Valid() && !gpu.recording && !gpu.allocator.destroyed
    ensures Resources.Accounts(gpu.allocator, buffers, images)
    ensures gpu.allocator.live <= old(gpu.allocator.live) + {images[0].allocation}
    ensures results.targetResult != Success ==>
              && err == Some(VkError(Vma.CREATE_FAILED, results.targetResult.Name()))
              && gpu.allocator.Ledger() == old(gpu.allocator.Ledger()) && gpu.trace == old(gpu.trace)
              && images[0].image == old(images[0].image)
    ensures results.targetResult == Success ==>
              var gone := Vma.Held(old(images[0].image), old(images[0].allocation));
              && images[0].image != 0 && gone <= old(gpu.allocator.live)
              && images[0].allocation !in old(gpu.allocator.live) + old(gpu.allocator.freed)
              && gpu.allocator.live == old(gpu.allocator.live) - gone + {images[0].allocation}
              && gpu.allocator.freed == old(gpu.allocator.freed) + gone
              && gpu.allocator.info[images[0].allocation]
                   == Vma.ImageInfo(p.width, p.height, 1, 1, 1, Optimal, TEXTURE_USAGE, R8G8B8A8Srgb,
                                    VMA_MEMORY_USAGE_AUTO, VMA_DEDICATED_MEMORY)
    ensures results.AllSucceed(3) ==>
              && err.None?
              && gpu.allocator.contents[images[0].allocation] == p.bytes
              && images[0].image in gpu.layouts && gpu.layouts[images[0].image] == ShaderReadOnlyOptimal
              && gpu.trace == old(gpu.trace) + TextureUploadTrace(staging.buffer, images[0].image, p.width, p.height, 1)
  {
    err := Resources.ReplaceImageAt(gpu.allocator, buffers, images, 0, p.width, p.height, 1, TEXTURE_USAGE,
                                    R8G8B8A8Srgb, VMA_MEMORY_USAGE_AUTO, VMA_DEDICATED_MEMORY,
                                    results.targetResult, results.targetAddress);
    if err.Some? {
      return;
    }
    var texture := images[0];
    assert texture.Valid() && staging.Valid();
    err := FillTexture(gpu, buffers, images, staging.buffer, texture.image, p, results.commandResults);
  }

  /** The upload into the freshly assigned texture `images[0]` from the
      staging allocation `staging`, which holds the pixels. */
  method FillTexture(gpu: GpuContext, buffers: seq<Vma.VmaBuffer>, images: seq<Vma.VmaImage>,
                     staging: nat, image: nat, p: Pixels, results: seq<VkResult>)
    returns (err: Option<Error>)
    requires gpu.Valid() && !gpu.recording && |results| >= 3
    requires Resources.Accounts(gpu.allocator, buffers, images)
    requires staging in gpu.allocator.contents && gpu.allocator.contents[staging] == p.bytes
    requires image in gpu.allocator.contents && |p.bytes| == p.width * p.height * TEXEL_BYTES
    modifies gpu, gpu.allocator
    ensures gpu.Valid() && !gpu.recording
    ensures Resources.Accounts(gpu.allocator, buffers, images) && gpu.allocator.Ledger() == old(gpu.allocator.Ledger())
    ensures err.None? <==> results[0].HasValue() && results[1].HasValue() && results[2].HasValue()
    ensures err.None? ==>
              && gpu.allocator.contents[image] == p.bytes
              && image in gpu.layouts && gpu.layouts[image] == ShaderReadOnlyOptimal
              && gpu.trace == old(gpu.trace) + TextureUploadTrace(staging, image, p.width, p.height, 1)
  {
    ghost var before, bs, ims := gpu.allocator.Ledger(), Resources.BufferSlots(buffers), Resources.ImageSlots(images);
    Resources.Snapshot(gpu.allocator, buffers, images, null, {});
    err := TransferTexture(gpu, staging, image, p.width, p.height, 1, results);
    Resources.Unaffected(gpu.allocator, buffers, images, bs, ims, before);
    assert p.bytes[..p.width * p.height * TEXEL_BYTES] == p.bytes;
  }

  /** The device-local half of `create_index_buffer` and
      `create_vertex_buffer`: `buffers[j]` is replaced by a buffer of
      `|bytes|` bytes, usage `usage | TransferDst`, in dedicated memory, and
      the bytes of the host-visible `staging` allocation are copied into it
      by one one-time submission. */
  method CopyIntoNew(gpu: GpuContext, buffers: seq<Vma.VmaBuffer>, images: seq<Vma.VmaImage>, j: nat,
                     staging: nat, bytes: seq<bv8>, usage: bv32, results: UploadResults)
    returns (err: Option<Error>)
    requires gpu.Valid() && !gpu.recording && !gpu.allocator.destroyed
    requires Resources.Accounts(gpu.allocator, buffers, images) && j < |buffers|
    requires staging in gpu.allocator.live && gpu.allocator.contents[staging] == bytes
    requires results.targetAddress != 0 && |results.commandResults| >= 1
    modifies gpu, gpu.allocator, buffers[j]
    ensures gpu.Valid() && !gpu.recording && !gpu.allocator.destroyed
    ensures Resources.Accounts(gpu.allocator, buffers, images)
    ensures gpu.allocator.live <= old(gpu.allocator.live) + {buffers[j].allocation}
    ensures results.targetResult != Success ==>
              && err == Some(VkError(Vma.CREATE_FAILED, results.targetResult.Name()))
              && gpu.allocator.Ledger() == old(gpu.allocator.Ledger()) && gpu.trace == old(gpu.trace)
              && buffers[j].buffer == old(buffers[j].buffer)
    ensures results.targetResult == Success ==>
              var gone := Vma.Held(old(buffers[j].buffer), old(buffers[j].allocation));
              && buffers[j].buffer != 0 && gone <= old(gpu.allocator.live)
              && buffers[j].allocation !in old(gpu.allocator.live) + old(gpu.allocator.freed)
              && gpu.allocator.live == old(gpu.allocator.live) - gone + {buffers[j].allocation}
              && gpu.allocator.freed == old(gpu.allocator.freed) + gone
              && gpu.allocator.info[buffers[j].allocation]
                   == Vma.BufferInfo(|bytes|, usage | BUFFER_USAGE_TRANSFER_DST, VMA_MEMORY_USAGE_AUTO,
                                     VMA_DEDICATED_MEMORY)
    ensures results.targetResult == Success ==>
              (err.None? <==> results.commandResults[0].HasValue())
    ensures results.targetResult == Success && err.None? ==>
              && gpu.allocator.contents[buffers[j].allocation] == bytes
              && gpu.trace == old(gpu.trace)
                   + OneTimeSubmit(Command.CopyBuffer(staging, buffers[j].buffer, BufferCopy(0, 0, |bytes|)))
  {
    err := Resources.ReplaceBufferAt(gpu.allocator, buffers, images, j, |bytes|, usage | BUFFER_USAGE_TRANSFER_DST,
                                     VMA_MEMORY_USAGE_AUTO, VMA_DEDICATED_MEMORY,
                                     results.targetResult, results.targetAddress);
    if err.Some? {
      return;
    }
    var target := buffers[j];
    assert target.Valid();
    err := FillBuffer(gpu, buffers, images, staging, target.buffer, bytes, results.commandResults[0]);
  }

  /** `copy_buffer(staging, dst, |bytes|)` between two live buffers of the
      same size, `staging` holding `bytes`. */
  method FillBuffer(gpu: GpuContext, buffers: seq<Vma.VmaBuffer>, images: seq<Vma.VmaImage>,
                    staging: nat, dst: nat, bytes: seq<bv8>, result: VkResult)
    returns (err: Option<Error>)
    requires gpu.Valid() && !gpu.recording && Resources.Accounts(gpu.allocator, buffers, images)
    requires staging in gpu.allocator.contents && gpu.allocator.contents[staging] == bytes
    requires dst in gpu.allocator.contents && |gpu.allocator.contents[dst]| == |bytes|
    modifies gpu, gpu.allocator
    ensures gpu.Valid() && !gpu.recording
    ensures Resources.Accounts(gpu.allocator, buffers, images) && gpu.allocator.Ledger() == old(gpu.allocator.Ledger())
    ensures err.None? <==> result.HasValue()
    ensures err.None? ==>
              && gpu.allocator.contents[dst] == bytes
              && gpu.trace == old(gpu.trace) + OneTimeSubmit(Command.CopyBuffer(staging, dst, BufferCopy(0, 0, |bytes|)))
    ensures err.Some? ==> gpu.trace == old(gpu.trace)
  {
    ghost var before, bs, ims := gpu.allocator.Ledger(), Resources.BufferSlots(buffers), Resources.ImageSlots(images);
    Resources.Snapshot(gpu.allocator, buffers, images, null, {});
    err := Transfers.CopyBuffer(gpu, staging, dst, |bytes|, result);
    Resources.Unaffected(gpu.allocator, buffers, images, bs, ims, before);
    assert bytes[..|bytes|] == bytes;
  }

  /** `CopyIntoNew` once the staging buffer `staging` holds `bytes`, the
      allocator having had `live0` live and `freed0` freed and the queue
      trace having been `trace0` before it was made; the staging buffer is
      destroyed on every path. */
  method UploadAndReleaseBuffer(gpu: GpuContext, buffers: seq<Vma.VmaBuffer>, images: seq<Vma.VmaImage>, j: nat,
                                staging: Vma.VmaBuffer, bytes: seq<bv8>, usage: bv32, results: UploadResults,
                                ghost live0: set<nat>, ghost freed0: set<nat>, ghost trace0: seq<Command>)
    returns (err: Option<Error>)
    requires gpu.Valid() && !gpu.recording && !gpu.allocator.destroyed && gpu.trace == trace0
    requires Resources.Accounts(gpu.allocator, buffers + [staging], images) && j < |buffers|
    requires staging !in buffers && staging.buffer != 0 && staging.buffer == staging.allocation
    requires staging.allocation !in live0 + freed0 && gpu.allocator.live == live0 + {staging.allocation}
    requires gpu.allocator.freed == freed0 && gpu.allocator.contents[staging.allocation] == bytes
    requires results.stagingResult == Success && results.targetAddress != 0 && |results.commandResults| >= 1
    modifies gpu, gpu.allocator, buffers[j]
    ensures gpu.Valid() && !gpu.recording && !gpu.allocator.destroyed
    ensures Resources.Accounts(gpu.allocator, buffers, images)
    ensures gpu.allocator.live <= live0 + {buffers[j].allocation}
    ensures results.targetResult != Success ==>
              && err == Some(VkError(Vma.CREATE_FAILED, results.targetResult.Name()))
              && gpu.allocator.live == live0 && gpu.trace == trace0
              && buffers[j].buffer == old(buffers[j].buffer)
    ensures results.targetResult == Success ==>
              && buffers[j].buffer != 0
              && buffers[j].allocation !in live0 + freed0
              && gpu.allocator.info[buffers[j].allocation]
                   == Vma.BufferInfo(|bytes|, usage | BUFFER_USAGE_TRANSFER_DST, VMA_MEMORY_USAGE_AUTO,
                                     VMA_DEDICATED_MEMORY)
              && (err.None? <==> results.commandResults[0].HasValue())
    ensures results.AllSucceed(1) ==>
              && err.None?
              && gpu.allocator.contents[buffers[j].allocation] == bytes
              && exists s :: s !in live0 + freed0
                   && gpu.trace == trace0 + OneTimeSubmit(Command.CopyBuffer(s, buffers[j].buffer, BufferCopy(0, 0, |bytes|)))
  {
    assert (buffers + [staging])[j] == buffers[j];
    err := CopyIntoNew(gpu, buffers + [staging], images, j, staging.buffer, bytes, usage, results);
    ghost var live2 := gpu.allocator.live;
    Resources.DestroyLast(gpu.allocator, buffers, images, staging);
    StagingReleased(live0, staging.allocation, live2, buffers[j].allocation, gpu.allocator.live);
  }

  /** `create_index_buffer` / `create_vertex_buffer` on `buffers[j]`: the
      bytes go through a host-visible staging buffer, which never outlives
      the call, into a new device-local buffer that replaces `buffers[j]`. */
  method CreateDeviceLocal(gpu: GpuContext, buffers: seq<Vma.VmaBuffer>, images: seq<Vma.VmaImage>, j: nat,
                           bytes: seq<bv8>, usage: bv32, results: UploadResults)
    returns (err: Option<Error>)
    requires gpu.Valid() && !gpu.recording && !gpu.allocator.destroyed
    requires Resources.Accounts(gpu.allocator, buffers, images) && j < |buffers|
    requires results.stagingAddress != 0 && results.targetAddress != 0 && |results.commandResults| >= 1
    modifies gpu, gpu.allocator, buffers[j]
    ensures gpu.Valid() && !gpu.recording && !gpu.allocator.destroyed
    ensures Resources.Accounts(gpu.allocator, buffers, images)
    // the staging buffer never outlives the call
    ensures gpu.allocator.live <= old(gpu.allocator.live) + {buffers[j].allocation}
    ensures results.stagingResult != Success ==>
              && err == Some(VkError(Vma.CREATE_FAILED, results.stagingResult.Name()))
              && gpu.allocator.live == old(gpu.allocator.live) && gpu.trace == old(gpu.trace)
              && buffers[j].buffer == old(buffers[j].buffer)
    ensures results.stagingResult == Success && results.targetResult != Success ==>
              && err == Some(VkError(Vma.CREATE_FAILED, results.targetResult.Name()))
              && gpu.allocator.live == old(gpu.allocator.live) && gpu.trace == old(gpu.trace)
              && buffers[j].buffer == old(buffers[j].buffer)
    ensures results.stagingResult == Success && results.targetResult == Success ==>
              && buffers[j].buffer != 0
              && buffers[j].allocation !in old(gpu.allocator.live) + old(gpu.allocator.freed)
              && gpu.allocator.info[buffers[j].allocation]
                   == Vma.BufferInfo(|bytes|, usage | BUFFER_USAGE_TRANSFER_DST, VMA_MEMORY_USAGE_AUTO,
                                     VMA_DEDICATED_MEMORY)
              && (err.None? <==> results.commandResults[0].HasValue())
    ensures results.AllSucceed(1) ==>
              && err.None?
              && gpu.allocator.contents[buffers[j].allocation] == bytes
              && exists s :: s !in old(gpu.allocator.live) + old(gpu.allocator.freed)
                   && gpu.trace == old(gpu.trace)
                        + OneTimeSubmit(Command.CopyBuffer(s, buffers[j].buffer, BufferCopy(0, 0, |bytes|)))
  {
    var staged := StageBytes(gpu.allocator, buffers, images, bytes, results.stagingResult, results.stagingAddress);
    if staged.Err? {
      return Some(staged.error);
    }
    err := UploadAndReleaseBuffer(gpu, buffers, images, j, staged.value, bytes, usage, results,
                                  old(gpu.allocator.live), old(gpu.allocator.freed), old(gpu.trace));
  }

  class Velo {
    const gpu: GpuContext
    const swapchain: Swapchain.SwapchainContext
    const indexBuff: Vma.VmaBuffer
    const vertexBuff: Vma.VmaBuffer
    const materialIdxBuff: Vma.VmaBuffer
    const textureImage: Vma.VmaImage
    /** `frames[i].uniformBuffer` of each frame in flight. */
    const uniformBuffers: seq<Vma.VmaBuffer>
    var materialImages: seq<Vma.VmaImage>
    var mipLvls: nat
    var teardown: seq<TeardownEvent>

    /** Every `VmaBuffer` the renderer owns. */
    function Buffers(): seq<Vma.VmaBuffer> {
      [indexBuff, vertexBuff, materialIdxBuff] + uniformBuffers
    }

    /** Every `VmaImage` the renderer owns. */
    function Images(): seq<Vma.VmaImage>
      reads this
    {
      [textureImage, swapchain.depthImage] + materialImages
    }

    /** The device is idle between helpers, and every live allocation of the
        allocator is held by one of the renderer's wrappers, each a
        different object. */
    ghost predicate Valid()
      reads this, gpu, gpu.allocator, Buffers(), Images()
    {
      && gpu.Valid() && !gpu.recording
      && Resources.Accounts(gpu.allocator, Buffers(), Images())
      && Distinct(Buffers()) && Distinct(Images())
    }

    /** The members as the constructor leaves them: every wrapper empty. */
    constructor (gpu: GpuContext, swapchain: Swapchain.SwapchainContext, framesInFlight: nat)
      requires gpu.Valid() && !gpu.recording && gpu.allocator.live == {}
      requires swapchain.depthImage.Valid() && swapchain.depthImage.vmaAllocator == null
      ensures Valid() && this.gpu == gpu && this.swapchain == swapchain
      ensures |uniformBuffers| == framesInFlight && materialImages == [] && teardown == []
      ensures forall k :: 0 <= k < |Buffers()| ==> Buffers()[k].buffer == 0
      ensures textureImage.image == 0
    {
      this.gpu := gpu;
      this.swapchain := swapchain;
      var all := EmptyBuffers(3 + framesInFlight);
      indexBuff, vertexBuff, materialIdxBuff := all[0], all[1], all[2];
      uniformBuffers := all[3..];
      var texture := new Vma.VmaImage.Empty();
      textureImage := texture;
      materialImages, mipLvls, teardown := [], 0, [];
      new;
      assert Buffers() == all;
      EmptyAccounts(gpu.allocator, all, Images());
    }

    /** `create_texture_image`: `pixels` is what the image loader returned
        for the texture file, `None` when it failed. */
    method CreateTextureImage(pixels: Option<Pixels>, results: UploadResults) returns (err: Option<Error>)
      requires Valid() && !gpu.allocator.destroyed
      requires pixels.Some? ==> |pixels.value.bytes| == pixels.value.width * pixels.value.height * TEXEL_BYTES
      requires results.stagingAddress != 0 && results.targetAddress != 0 && |results.commandResults| >= 3
      modifies this, gpu, gpu.allocator, textureImage
      ensures Valid() && !gpu.allocator.destroyed
      ensures materialImages == old(materialImages) && teardown == old(teardown)
      ensures gpu.allocator.live <= old(gpu.allocator.live) + {textureImage.allocation}
      ensures pixels.None? ==>
                && err == Some(RuntimeError(TEXTURE_LOAD_FAILED))
                && mipLvls == old(mipLvls) && gpu.allocator.live == old(gpu.allocator.live)
                && gpu.trace == old(gpu.trace) && textureImage.image == old(textureImage.image)
      ensures pixels.Some? ==> mipLvls == 1
      ensures pixels.Some? && results.AllSucceed(3) ==>
                && err.None?
                && textureImage.allocation in gpu.allocator.contents
                && gpu.allocator.contents[textureImage.allocation] == pixels.value.bytes
                && textureImage.image in gpu.layouts && gpu.layouts[textureImage.image] == ShaderReadOnlyOptimal
    {
      if pixels.None? {
        return Some(RuntimeError(TEXTURE_LOAD_FAILED));
      }
      mipLvls := 1;
      err := CreateTexture(gpu, Buffers(), Images(), pixels.value, results);
    }

    /** `create_index_buffer`: `indexBytes` are the mesh's indices as
        consecutive 32-bit words. */
    method CreateIndexBuffer(indexBytes: seq<bv8>, results: UploadResults) returns (err: Option<Error>)
      requires Valid() && !gpu.allocator.destroyed
      requires results.stagingAddress != 0 && results.targetAddress != 0 && |results.commandResults| >= 1
      modifies gpu, gpu.allocator, indexBuff
      ensures Valid() && !gpu.allocator.destroyed
      ensures gpu.allocator.live <= old(gpu.allocator.live) + {indexBuff.allocation}
      ensures err.None? <==> results.AllSucceed(1)
      ensures results.stagingResult != Success || results.targetResult != Success ==>
                gpu.allocator.live == old(gpu.allocator.live) && gpu.trace == old(gpu.trace)
      ensures err.None? ==>
                && indexBuff.allocation in gpu.allocator.contents && indexBuff.allocation in gpu.allocator.info
                && gpu.allocator.contents[indexBuff.allocation] == indexBytes
                && gpu.allocator.info[indexBuff.allocation].usage == BUFFER_USAGE_INDEX | BUFFER_USAGE_TRANSFER_DST
    {
      err := CreateDeviceLocal(gpu, Buffers(), Images(), 0, indexBytes, BUFFER_USAGE_INDEX, results);
    }

    /** `create_vertex_buffer`: `vertexBytes` are the mesh's vertices as
        laid out in memory. */
    method CreateVertexBuffer(vertexBytes: seq<bv8>, results: UploadResults) returns (err: Option<Error>)
      requires Valid() && !gpu.allocator.destroyed
      requires results.stagingAddress != 0 && results.targetAddress != 0 && |results.commandResults| >= 1
      modifies gpu, gpu.allocator, vertexBuff
      ensures Valid() && !gpu.allocator.destroyed
      ensures gpu.allocator.live <= old(gpu.allocator.live) + {vertexBuff.allocation}
      ensures err.None? <==> results.AllSucceed(1)
      ensures results.stagingResult != Success || results.targetResult != Success ==>
                gpu.allocator.live == old(gpu.allocator.live) && gpu.trace == old(gpu.trace)
      ensures err.None? ==>
                && vertexBuff.allocation in gpu.allocator.contents && vertexBuff.allocation in gpu.allocator.info
                && gpu.allocator.contents[vertexBuff.allocation] == vertexBytes
                && gpu.allocator.info[vertexBuff.allocation].usage == BUFFER_USAGE_VERTEX | BUFFER_USAGE_TRANSFER_DST
    {
      err := CreateDeviceLocal(gpu, Buffers(), Images(), 1, vertexBytes, BUFFER_USAGE_VERTEX, results);
    }

    /** `cleanup`: the swapchain is cleaned up; `indexBuff`, `vertexBuff`,
        `materialIdxBuff`, `textureImage` and `swapchain.depthImage` are
        reset; the material images are destroyed as their vector is
        cleared; each frame's uniform buffer is reset; only then, with no
        allocation left live, is the allocator destroyed, and the surface
        is cleared before the window is destroyed. Every allocation live at
        the start is freed, once. */
    method Cleanup()
      requires Valid() && !gpu.allocator.destroyed
      modifies this, swapchain, gpu.allocator, Buffers(), Images()
      ensures gpu.allocator.destroyed && gpu.allocator.live == {}
      ensures gpu.allocator.freed == old(gpu.allocator.freed) + old(gpu.allocator.live)
      ensures forall k :: 0 <= k < |Buffers()| ==> Buffers()[k].buffer == 0
      ensures textureImage.image == 0 && swapchain.depthImage.image == 0 && materialImages == []
      ensures swapchain.events == old(swapchain.events) + [Swapchain.ViewsCleared, Swapchain.SwapchainReleased]
      ensures teardown == old(teardown) + [SwapchainCleanedUp, AllocatorDestroyed, SurfaceCleared, WindowDestroyed, GlfwTerminated]
    {
      swapchain.Cleanup();
      teardown := teardown + [SwapchainCleanedUp];
      ReleaseResources();
      teardown := teardown + [AllocatorDestroyed, SurfaceCleared, WindowDestroyed, GlfwTerminated];
    }

    /** The part of `cleanup` from `indexBuff = {}` to `vmaDestroyAllocator`. */
    method ReleaseResources()
      requires Valid() && !gpu.allocator.destroyed
      modifies this, gpu.allocator, Buffers(), Images()
      ensures gpu.allocator.destroyed && gpu.allocator.live == {}
      ensures gpu.allocator.freed == old(gpu.allocator.freed) + old(gpu.allocator.live)
      ensures forall k :: 0 <= k < |Buffers()| ==> Buffers()[k].buffer == 0
      ensures textureImage.image == 0 && swapchain.depthImage.image == 0 && materialImages == []
      ensures teardown == old(teardown)
    {
      var images := Images();
      ReleaseAll(gpu.allocator, Buffers(), images, 3, 2);
      materialImages := [];
      assert images[0] == textureImage && images[1] == swapchain.depthImage;
    }
  }
}
