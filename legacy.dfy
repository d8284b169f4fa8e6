/** The earlier revisions of the renderer: the `Vorn` class and the parts
    of `Velo` that still use the bare `allocator` and `device` members
    (per-frame command recording, uniform buffers, command buffers, the
    binary and timeline semaphores, and swapchain recreation). */
module Legacy {
  import opened Outcomes
  import opened Vk
  import opened Commands
  import opened Search
  import Vma
  import Resources
  import Swapchain
  import VeloApp

  // ---------------------------------------------------------------------
  // record_command_buffer

  /** A per-frame command buffer; `begin` resets it, the pool having been
      created with the reset-command-buffer flag. */
  class CommandBuffer {
    var commands: seq<Command>

    constructor ()
      ensures commands == []
    {
      commands := [];
    }
  }

  /** The barrier `transition_image_layout` records on a swapchain image:
      colour aspect, mip level 0 only, one layer. */
  function SwapchainBarrier(image: nat, oldLayout: ImageLayout, newLayout: ImageLayout,
                            srcAccess: set<Access>, dstAccess: set<Access>,
                            srcStage: set<Stage>, dstStage: set<Stage>): ImageBarrier
  {
    ImageBarrier(srcStage, srcAccess, dstStage, dstAccess, oldLayout, newLayout, image,
                 SubresourceRange(Color, 0, 1, 0, 1))
  }

  /** The barrier into the colour-attachment layout, before rendering. */
  function ToAttachment(image: nat): ImageBarrier {
    SwapchainBarrier(image, LayoutUndefined, ColorAttachmentOptimal, {}, {ColorAttachmentWrite},
                     {ColorAttachmentOutput}, {ColorAttachmentOutput})
  }

  /** The barrier into the present layout, after rendering. */
  function ToPresent(image: nat): ImageBarrier {
    SwapchainBarrier(image, ColorAttachmentOptimal, PresentSrc, {ColorAttachmentWrite}, {},
                     {ColorAttachmentOutput}, {BottomOfPipe})
  }

  /** Where the draw sits in a recorded frame. */
  const DRAW_AT: nat := 10

  /** Begin, move the image into the attachment layout, begin rendering. */
  function Opening(image: nat, view: nat, extent: Extent2D): seq<Command> {
    [Begin(false), PipelineBarrier(ToAttachment(image)), BeginRendering(view, ColorAttachmentOptimal, extent)]
  }

  /** The state the draw needs: pipeline, buffers, viewport, scissor,
      descriptor sets and the push constants of slot `frameIdx`. */
  function SetUp(extent: Extent2D, vertexBuffer: nat, indexBuffer: nat, frameIdx: nat): seq<Command> {
    [ BindPipeline, BindVertexBuffer(vertexBuffer), BindIndexBuffer(indexBuffer, Uint16),
      SetViewport(extent), SetScissor(extent), BindDescriptorSets, PushConstants(frameIdx, 0) ]
  }

  /** Move the image into the present layout and end the buffer. */
  function Closing(image: nat): seq<Command> {
    [PipelineBarrier(ToPresent(image)), End]
  }

  /** What `record_command_buffer(imgIdx)` leaves in the frame's command
      buffer, for swapchain image `image` seen through `view`. */
  function FrameCommands(image: nat, view: nat, extent: Extent2D, vertexBuffer: nat, indexBuffer: nat,
                         frameIdx: nat, indexCount: nat): (r: seq<Command>)
    ensures |r| == DRAW_AT + 4 && r[0] == Begin(false) && r[|r| - 1] == End
    // the one draw: every index of the mesh, one instance, 16-bit indices
    ensures forall i :: 0 <= i < |r| && r[i].DrawIndexed? ==> i == DRAW_AT
    ensures r[DRAW_AT] == DrawIndexed(indexCount, 1, 0, 0, 0)
    ensures exists i :: 0 <= i < DRAW_AT && r[i] == BindIndexBuffer(indexBuffer, Uint16)
    ensures exists i :: 0 <= i < DRAW_AT && r[i] == PushConstants(frameIdx, 0)
    // the draw is inside the one rendering scope, on the image's view
    ensures forall i :: 0 <= i < |r| && r[i].BeginRendering? ==>
              i < DRAW_AT && r[i] == BeginRendering(view, ColorAttachmentOptimal, extent)
    ensures forall i :: 0 <= i < |r| && r[i] == EndRendering ==> i > DRAW_AT
    ensures exists i, j :: 0 <= i < DRAW_AT < j < |r| && r[i].BeginRendering? && r[j] == EndRendering
    // the barriers move `image` only
    ensures forall i :: 0 <= i < |r| && r[i].PipelineBarrier? ==> r[i].barrier.image == image
  {
    var r := Opening(image, view, extent) + SetUp(extent, vertexBuffer, indexBuffer, frameIdx)
             + [DrawIndexed(indexCount, 1, 0, 0, 0), EndRendering] + Closing(image);
    assert r[5] == BindIndexBuffer(indexBuffer, Uint16) && r[9] == PushConstants(frameIdx, 0);
    assert r[2].BeginRendering? && r[11] == EndRendering;
    r
  }

  /** `transition_image_layout`: one barrier recorded into `cb`. */
  method TransitionImageLayout(cb: CommandBuffer, image: nat, oldLayout: ImageLayout, newLayout: ImageLayout,
                               srcAccess: set<Access>, dstAccess: set<Access>,
                               srcStage: set<Stage>, dstStage: set<Stage>)
    modifies cb
    ensures cb.commands == old(cb.commands)
              + [PipelineBarrier(SwapchainBarrier(image, oldLayout, newLayout, srcAccess, dstAccess, srcStage, dstStage))]
  {
    cb.commands := cb.commands
      + [PipelineBarrier(SwapchainBarrier(image, oldLayout, newLayout, srcAccess, dstAccess, srcStage, dstStage))];
  }

  /** `record_command_buffer(imgIdx)` of both revisions, into the command
      buffer of the current frame slot `frameIdx`; `indexCount` is
      `indices.size()`. */
  method RecordCommandBuffer(cb: CommandBuffer, swapchainImgs: seq<nat>, swapchainImgViews: seq<nat>, imgIdx: nat,
                             extent: Extent2D, vertexBuffer: nat, indexBuffer: nat, frameIdx: nat, indexCount: nat)
    requires imgIdx < |swapchainImgs| && imgIdx < |swapchainImgViews|
    modifies cb
    ensures cb.commands == FrameCommands(swapchainImgs[imgIdx], swapchainImgViews[imgIdx], extent,
                                         vertexBuffer, indexBuffer, frameIdx, indexCount)
  {
    var image := swapchainImgs[imgIdx];
    cb.commands := [Begin(false)];
    TransitionImageLayout(cb, image, LayoutUndefined, ColorAttachmentOptimal, {}, {ColorAttachmentWrite},
                          {ColorAttachmentOutput}, {ColorAttachmentOutput});
    cb.commands := cb.commands + [BeginRendering(swapchainImgViews[imgIdx], ColorAttachmentOptimal, extent)];
    cb.commands := cb.commands + [BindPipeline, BindVertexBuffer(vertexBuffer), BindIndexBuffer(indexBuffer, Uint16)];
    cb.commands := cb.commands + [SetViewport(extent), SetScissor(extent), BindDescriptorSets];
    cb.commands := cb.commands + [PushConstants(frameIdx, 0), DrawIndexed(indexCount, 1, 0, 0, 0), EndRendering];
    TransitionImageLayout(cb, image, ColorAttachmentOptimal, PresentSrc, {ColorAttachmentWrite}, {},
                          {ColorAttachmentOutput}, {BottomOfPipe});
    cb.commands := cb.commands + [End];
  }

  /** A command with no effect on memory or layouts. */
  predicate Inert(c: Command) {
    !c.PipelineBarrier? && !c.CopyBuffer? && !c.CopyBufferToImage?
  }

  /** Executing `a` then `b` is executing `a + b`. */
  lemma {:induction false} ExecuteAllAppend(s: DeviceState, a: seq<Command>, b: seq<Command>)
    ensures ExecuteAll(s, a + b) == ExecuteAll(ExecuteAll(s, a), b)
    decreases |a|
  {
    if a == [] {
      assert a + b == b;
    } else {
      assert (a + b)[0] == a[0] && (a + b)[1..] == a[1..] + b;
      ExecuteAllAppend(Execute(s, a[0]), a[1..], b);
    }
  }

  /** A batch of inert commands changes nothing. */
  lemma {:induction false} ExecuteInert(s: DeviceState, cs: seq<Command>)
    requires forall i :: 0 <= i < |cs| ==> Inert(cs[i])
    ensures ExecuteAll(s, cs) == s
    decreases |cs|
  {
    if cs != [] {
      assert Execute(s, cs[0]) == s;
      ExecuteInert(s, cs[1..]);
    }
  }

  /** Executed, a recorded frame draws while the swapchain image is in
      the colour-attachment layout, leaves it in the present layout, and
      changes no memory and no other image's layout. */
  lemma RecordedFrameLayouts(s: DeviceState, image: nat, view: nat, extent: Extent2D, vertexBuffer: nat,
                             indexBuffer: nat, frameIdx: nat, indexCount: nat)
    ensures var r := FrameCommands(image, view, extent, vertexBuffer, indexBuffer, frameIdx, indexCount);
            && ExecuteAll(s, r[..DRAW_AT]) == s.(layouts := s.layouts[image := ColorAttachmentOptimal])
            && ExecuteAll(s, r) == s.(layouts := s.layouts[image := PresentSrc])
  {
    var opening, setUp, closing := Opening(image, view, extent), SetUp(extent, vertexBuffer, indexBuffer, frameIdx), Closing(image);
    var drawing := [DrawIndexed(indexCount, 1, 0, 0, 0), EndRendering];
    var r := FrameCommands(image, view, extent, vertexBuffer, indexBuffer, frameIdx, indexCount);
    assert r == opening + setUp + drawing + closing;
    var during := s.(layouts := s.layouts[image := ColorAttachmentOptimal]);
    OpeningLayouts(s, image, view, extent);
    ExecuteInert(during, setUp);
    ExecuteAllAppend(s, opening, setUp);
    assert r[..DRAW_AT] == opening + setUp;
    ExecuteInert(during, drawing);
    ExecuteAllAppend(s, opening + setUp, drawing);
    ClosingLayouts(during, image);
    ExecuteAllAppend(s, opening + setUp + drawing, closing);
  }

  /** The opening moves `image` into the attachment layout. */
  lemma OpeningLayouts(s: DeviceState, image: nat, view: nat, extent: Extent2D)
    ensures ExecuteAll(s, Opening(image, view, extent)) == s.(layouts := s.layouts[image := ColorAttachmentOptimal])
  {
    var o := Opening(image, view, extent);
    assert o == [o[0]] + [o[1]] + [o[2]];
    ExecuteAllAppend(s, [o[0]] + [o[1]], [o[2]]);
    ExecuteAllAppend(s, [o[0]], [o[1]]);
    ExecuteSingle(s, o[0]);
    ExecuteSingle(s, o[1]);
    ExecuteSingle(s.(layouts := s.layouts[image := ColorAttachmentOptimal]), o[2]);
  }

  /** The closing moves `image` into the present layout. */
  lemma ClosingLayouts(s: DeviceState, image: nat)
    ensures ExecuteAll(s, Closing(image)) == s.(layouts := s.layouts[image := PresentSrc])
  {
    var c := Closing(image);
    assert c == [c[0]] + [c[1]];
    ExecuteAllAppend(s, [c[0]], [c[1]]);
    ExecuteSingle(s, c[0]);
    ExecuteSingle(s.(layouts := s.layouts[image := PresentSrc]), c[1]);
  }

  // ---------------------------------------------------------------------
  // create_uniform_buffers

  /** Uniform buffers are written through a persistent mapping. */
  const UNIFORM_FLAGS: bv32 := VMA_HOST_ACCESS_SEQUENTIAL_WRITE | VMA_MAPPED

  /** A `vk::WriteDescriptorSet` of one uniform-buffer descriptor. */
  datatype DescriptorWrite = DescriptorWrite(binding: nat, arrayElement: nat, descriptorCount: nat,
                                             buffer: nat, offset: nat, range: nat)

  /** The write that binds the uniform buffer `buffer` of frame slot `i`:
      binding 0, array element `i`, the whole uniform block. */
  function UniformWrite(i: nat, buffer: nat, uboSize: nat): DescriptorWrite {
    DescriptorWrite(0, i, 1, buffer, 0, uboSize)
  }

  predicate Failed(r: VkResult) {
    r != Success
  }

  /** What `create_uniform_buffers` asks the allocator for, per buffer. */
  function UniformInfo(uboSize: nat): (r: Vma.ResourceInfo)
    ensures r.BufferInfo? && r.usage == BUFFER_USAGE_UNIFORM && HasAll(r.flags, VMA_MAPPED)
  {
    Vma.BufferInfo(uboSize, BUFFER_USAGE_UNIFORM, VMA_MEMORY_USAGE_AUTO, UNIFORM_FLAGS)
  }

  /** Uniform buffers `buffs`, each non-empty, pushed with the pointer the
      allocator mapped (`addresses[k]`) and bound to descriptor `k`. */
  ghost predicate UniformsMade(buffs: seq<Vma.VmaBuffer>, mapped: seq<nat>, writes: seq<DescriptorWrite>,
                               addresses: seq<nat>, uboSize: nat)
    reads buffs
  {
    && |mapped| == |buffs| && |writes| == |buffs| <= |addresses|
    && forall k :: 0 <= k < |buffs| ==>
         && buffs[k].buffer != 0 && mapped[k] == buffs[k].mapped == addresses[k]
         && writes[k] == UniformWrite(k, buffs[k].buffer, uboSize)
  }

  /** Every allocation of `buffs` is recorded in `info` as made for a
      uniform buffer. */
  ghost predicate UniformInfos(info: map<nat, Vma.ResourceInfo>, buffs: seq<Vma.VmaBuffer>, uboSize: nat)
    reads buffs
  {
    forall k :: 0 <= k < |buffs| ==> buffs[k].allocation in info && info[buffs[k].allocation] == UniformInfo(uboSize)
  }

  /** Pushing one more mapped uniform buffer keeps the vectors in step. */
  lemma UniformsSnoc(buffs: seq<Vma.VmaBuffer>, mapped: seq<nat>, writes: seq<DescriptorWrite>,
                     addresses: seq<nat>, uboSize: nat, b: Vma.VmaBuffer)
    requires UniformsMade(buffs, mapped, writes, addresses, uboSize) && |buffs| < |addresses|
    requires b.buffer != 0 && b.mapped == addresses[|buffs|]
    ensures UniformsMade(buffs + [b], mapped + [b.mapped], writes + [UniformWrite(|buffs|, b.buffer, uboSize)],
                         addresses, uboSize)
    ensures Allocations(buffs + [b]) == Allocations(buffs) + {b.allocation}
  {
    var buffs' := buffs + [b];
    assert forall k :: 0 <= k < |buffs| ==> buffs'[k] == buffs[k];
    assert buffs'[|buffs|] == b;
  }

  /** Recording the new buffer's allocation keeps every earlier one recorded. */
  lemma InfosSnoc(info: map<nat, Vma.ResourceInfo>, buffs: seq<Vma.VmaBuffer>, uboSize: nat, b: Vma.VmaBuffer)
    requires UniformInfos(info, buffs, uboSize)
    ensures UniformInfos(info[b.allocation := UniformInfo(uboSize)], buffs + [b], uboSize)
  {
    var buffs' := buffs + [b];
    assert forall k :: 0 <= k < |buffs| ==> buffs'[k] == buffs[k];
  }

  /** The allocations of `buffs`. */
  ghost function Allocations(buffs: seq<Vma.VmaBuffer>): set<nat>
    reads buffs
  {
    set k | 0 <= k < |buffs| :: buffs[k].allocation
  }

  /** The loop of `create_uniform_buffers`, the vectors having been
      cleared: one mapped uniform buffer per frame in flight, each pushed
      with its mapped pointer and bound to its descriptor. `results[i]` and
      `addresses[i]` are what the allocator answers for buffer `i`; the
      first failure throws, leaving the buffers made so far in place. */
  method CreateUniformBuffersFrom(allocator: Vma.Allocator, others: seq<Vma.VmaBuffer>, images: seq<Vma.VmaImage>,
                                  maxFrames: nat, uboSize: nat, results: seq<VkResult>, addresses: seq<nat>)
    returns (buffs: seq<Vma.VmaBuffer>, mapped: seq<nat>, writes: seq<DescriptorWrite>, err: Option<Error>)
    requires Resources.Accounts(allocator, others, images) && Distinct(others) && !allocator.destroyed
    requires |results| >= maxFrames && |addresses| >= maxFrames
    requires forall k :: 0 <= k < maxFrames ==> addresses[k] != 0
    modifies allocator
    ensures Resources.Accounts(allocator, others + buffs, images) && Distinct(others + buffs)
    ensures !allocator.destroyed && allocator.freed == old(allocator.freed)
    ensures match FirstIndex(results[..maxFrames], Failed)
            case None => err.None? && |buffs| == maxFrames
            case Some(i) => err == Some(VkError(Vma.CREATE_FAILED, results[i].Name())) && |buffs| == i
    ensures UniformsMade(buffs, mapped, writes, addresses, uboSize) && UniformInfos(allocator.info, buffs, uboSize)
    ensures allocator.live == old(allocator.live) + Allocations(buffs)
  {
    buffs, mapped, writes, err := [], [], [], None;
    assert others + buffs == others;
    for i := 0 to maxFrames
      invariant |buffs| == i && err.None?
      invariant Succeeded(results, i)
      invariant Resources.Accounts(allocator, others + buffs, images) && Distinct(others + buffs)
      invariant !allocator.destroyed && allocator.freed == old(allocator.freed)
      invariant UniformsMade(buffs, mapped, writes, addresses, uboSize) && UniformInfos(allocator.info, buffs, uboSize)
      invariant allocator.live == old(allocator.live) + Allocations(buffs)
    {
      var b;
      b, err := PushUniform(allocator, others, images, buffs, mapped, writes, addresses, uboSize, results[i],
                            old(allocator.live));
      if err.Some? {
        FirstFailure(results, maxFrames, i);
        return;
      }
      Succeeds(results, i);
      var made: Vma.VmaBuffer := b;
      mapped := mapped + [b.mapped];
      buffs := buffs + [made];
      writes := writes + [UniformWrite(i, b.buffer, uboSize)];
    }
    NoFailure(results, maxFrames);
  }

  /** One turn of the loop: `VmaBuffer(allocator, uboSize, eUniformBuffer,
      VMA_MEMORY_USAGE_AUTO, SEQUENTIAL_WRITE | MAPPED)` for slot
      `|buffs|`. */
  method PushUniform(allocator: Vma.Allocator, others: seq<Vma.VmaBuffer>, images: seq<Vma.VmaImage>,
                     buffs: seq<Vma.VmaBuffer>, mapped: seq<nat>, writes: seq<DescriptorWrite>,
                     addresses: seq<nat>, uboSize: nat, res: VkResult, ghost live0: set<nat>)
    returns (b: Vma.VmaBuffer?, err: Option<Error>)
    requires Resources.Accounts(allocator, others + buffs, images) && Distinct(others + buffs)
    requires !allocator.destroyed && |buffs| < |addresses| && addresses[|buffs|] != 0
    requires UniformsMade(buffs, mapped, writes, addresses, uboSize) && UniformInfos(allocator.info, buffs, uboSize)
    requires allocator.live == live0 + Allocations(buffs)
    modifies allocator
    ensures !allocator.destroyed && allocator.freed == old(allocator.freed)
    ensures err.None? <==> res == Success
    ensures err.Some? ==> err == Some(VkError(Vma.CREATE_FAILED, res.Name())) && unchanged(allocator)
    ensures err.Some? ==>
              && Resources.Accounts(allocator, others + buffs, images)
              && UniformInfos(allocator.info, buffs, uboSize) && allocator.live == live0 + Allocations(buffs)
    ensures err.None? ==>
              && b != null && b.buffer != 0 && b.mapped == addresses[|buffs|]
              && Resources.Accounts(allocator, others + (buffs + [b]), images) && Distinct(others + (buffs + [b]))
              && UniformsMade(buffs + [b], mapped + [b.mapped],
                              writes + [UniformWrite(|buffs|, b.buffer, uboSize)], addresses, uboSize)
              && UniformInfos(allocator.info, buffs + [b], uboSize)
              && allocator.live == live0 + Allocations(buffs + [b])
  {
    var r := CreateUniform(allocator, others, images, buffs, uboSize, res, addresses[|buffs|]);
    if r.Err? {
      return null, Some(r.error);
    }
    b := r.value;
    err := None;
    UniformAppended(others, buffs, b);
    UniformsSnoc(buffs, mapped, writes, addresses, uboSize, b);
    InfosSnoc(old(allocator.info), buffs, uboSize, b);
  }

  /** The `VmaBuffer` constructor call itself, with the uniform buffer's
      creation info; the wrappers already made keep their allocations. */
  method CreateUniform(allocator: Vma.Allocator, others: seq<Vma.VmaBuffer>, images: seq<Vma.VmaImage>,
                       buffs: seq<Vma.VmaBuffer>, uboSize: nat, res: VkResult, address: nat)
    returns (r: Result<Vma.VmaBuffer>)
    requires Resources.Accounts(allocator, others + buffs, images) && !allocator.destroyed && address != 0
    modifies allocator
    ensures !allocator.destroyed && allocator.freed == old(allocator.freed)
    ensures res == Success <==> r.Ok?
    ensures r.Err? ==> && r.error == VkError(Vma.CREATE_FAILED, res.Name())
                       && Resources.Accounts(allocator, others + buffs, images) && unchanged(allocator)
    ensures r.Ok? ==> && r.value.buffer != 0 && r.value.mapped == address
                      && Resources.Accounts(allocator, others + buffs + [r.value], images)
                      && r.value.allocation !in old(allocator.live)
                      && allocator.live == old(allocator.live) + {r.value.allocation}
                      && allocator.info == old(allocator.info)[r.value.allocation := UniformInfo(uboSize)]
                      && Allocations(buffs) == old(Allocations(buffs))
  {
    var info := UniformInfo(uboSize);
    r := Resources.CreateBuffer(allocator, others + buffs, images, info.size, info.usage,
                                info.memoryUsage, info.flags, res, address);
  }

  /** The first `n` results are all `VK_SUCCESS`. */
  ghost predicate Succeeded(results: seq<VkResult>, n: nat)
  {
    n <= |results| && forall k :: 0 <= k < n ==> results[k] == Success
  }

  /** One more success extends the run of successes. */
  lemma Succeeds(results: seq<VkResult>, n: nat)
    requires Succeeded(results, n) && n < |results| && results[n] == Success
    ensures Succeeded(results, n + 1)
  {
  }

  /** The first failure among the first `n` results is at `i` when every
      earlier one succeeded. */
  lemma FirstFailure(results: seq<VkResult>, n: nat, i: nat)
    requires i < n <= |results| && results[i] != Success
    requires forall k :: 0 <= k < i ==> results[k] == Success
    ensures FirstIndex(results[..n], Failed) == Some(i)
  {
    assert results[..n][i] == results[i];
    assert forall k :: 0 <= k < i ==> results[..n][k] == results[k];
  }

  /** No failure among the first `n` results. */
  lemma NoFailure(results: seq<VkResult>, n: nat)
    requires n <= |results| && forall k :: 0 <= k < n ==> results[k] == Success
    ensures FirstIndex(results[..n], Failed) == None
  {
    assert forall k :: 0 <= k < n ==> results[..n][k] == results[k];
  }

  /** Appending a new wrapper keeps the list free of duplicates. */
  lemma UniformAppended(others: seq<Vma.VmaBuffer>, buffs: seq<Vma.VmaBuffer>, b: Vma.VmaBuffer)
    requires Distinct(others + buffs) && b !in others + buffs
    ensures Distinct(others + (buffs + [b])) && (others + buffs) + [b] == others + (buffs + [b])
  {
    assert (others + buffs) + [b] == others + (buffs + [b]);
  }
}
