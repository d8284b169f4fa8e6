/** The synchronous transfer helpers: each records into a one-time command
    buffer, submits it and waits for the queue to go idle. */
module Transfers {
  import opened Outcomes
  import opened Vk
  import opened Commands
  import opened Images

  /** `transition_image_texture_layout`: the command buffer is begun before
      the table is consulted, so an unsupported pair leaves an allocated,
      begun and never submitted buffer behind it and records no barrier. */
  method TransitionImageTextureLayout(gpu: GpuContext, image: nat, oldLayout: ImageLayout, newLayout: ImageLayout,
                                      mips: nat, allocResult: VkResult)
    returns (err: Option<Error>)
    requires gpu.Valid() && !gpu.recording
    modifies gpu, gpu.allocator
    ensures gpu.Valid() && !gpu.recording
    ensures allocResult.HasValue() && TransitionMasks(oldLayout, newLayout).Ok? ==>
              && err.None?
              && gpu.trace == old(gpu.trace) + [AllocateCommandBuffer, Begin(true),
                   PipelineBarrier(TextureBarrier(image, oldLayout, newLayout, mips, TransitionMasks(oldLayout, newLayout).value)),
                   End, Submit, WaitIdle]
              && gpu.layouts == old(gpu.layouts)[image := newLayout]
    ensures allocResult.HasValue() && TransitionMasks(oldLayout, newLayout).Err? ==>
              && err == Some(InvalidArgument(UNSUPPORTED_TRANSITION))
              && gpu.trace == old(gpu.trace) + [AllocateCommandBuffer, Begin(true)]
              && gpu.layouts == old(gpu.layouts)
    ensures !allocResult.HasValue() ==>
              err == Some(VkError(ALLOCATE_FAILED, allocResult.Name())) && gpu.trace == old(gpu.trace)
              && gpu.layouts == old(gpu.layouts)
    ensures gpu.allocator.contents == old(gpu.allocator.contents)
    ensures gpu.allocator.Ledger() == old(gpu.allocator.Ledger())
  {
    err := gpu.BeginSingleTimeCommands(allocResult);
    if err.Some? {
      return;
    }
    var masks := TransitionMasks(oldLayout, newLayout);
    if masks.Err? {
      gpu.Discard();
      return Some(masks.error);
    }
    var barrier := TextureBarrier(image, oldLayout, newLayout, mips, masks.value);
    gpu.Record(PipelineBarrier(barrier));
    gpu.EndSingleTimeCommands();
    ExecuteSingle(DeviceState(old(gpu.allocator.contents), old(gpu.layouts)), PipelineBarrier(barrier));
  }

  /** `copy_buffer_to_image`: one region covering the whole image, read
      from offset 0 of the buffer into an image in `TransferDstOptimal`. */
  method CopyBufferToImage(gpu: GpuContext, buffer: nat, image: nat, width: nat, height: nat, allocResult: VkResult)
    returns (err: Option<Error>)
    requires gpu.Valid() && !gpu.recording
    modifies gpu, gpu.allocator
    ensures gpu.Valid() && !gpu.recording && gpu.layouts == old(gpu.layouts)
    ensures gpu.allocator.Ledger() == old(gpu.allocator.Ledger())
    ensures allocResult.HasValue() ==>
              && err.None?
              && gpu.trace == old(gpu.trace) + [AllocateCommandBuffer, Begin(true),
                   Command.CopyBufferToImage(buffer, image, TransferDstOptimal, TextureRegion(width, height)),
                   End, Submit, WaitIdle]
    ensures !allocResult.HasValue() ==>
              err == Some(VkError(ALLOCATE_FAILED, allocResult.Name())) && gpu.trace == old(gpu.trace)
              && gpu.allocator.contents == old(gpu.allocator.contents)
    // the image receives the first width * height * 4 bytes of the buffer; nothing else changes
    ensures allocResult.HasValue() && buffer in old(gpu.allocator.contents) && image in old(gpu.allocator.contents)
            && width * height * TEXEL_BYTES <= |old(gpu.allocator.contents)[buffer]| ==>
              gpu.allocator.contents == old(gpu.allocator.contents)[image :=
                old(gpu.allocator.contents)[buffer][..width * height * TEXEL_BYTES]]
  {
    err := gpu.BeginSingleTimeCommands(allocResult);
    if err.Some? {
      return;
    }
    var c := Command.CopyBufferToImage(buffer, image, TransferDstOptimal, TextureRegion(width, height));
    gpu.Record(c);
    gpu.EndSingleTimeCommands();
    ExecuteSingle(DeviceState(old(gpu.allocator.contents), old(gpu.layouts)), c);
  }

  /** `copy_buffer`: one region of `size` bytes from offset 0 to offset 0.
      When the source holds at least `size` bytes and the destination is
      exactly `size` bytes long, the destination ends up holding the
      source's first `size` bytes and every other allocation is unchanged. */
  method CopyBuffer(gpu: GpuContext, src: nat, dst: nat, size: nat, allocResult: VkResult)
    returns (err: Option<Error>)
    requires gpu.Valid() && !gpu.recording
    modifies gpu, gpu.allocator
    ensures gpu.Valid() && !gpu.recording && gpu.layouts == old(gpu.layouts)
    ensures gpu.allocator.Ledger() == old(gpu.allocator.Ledger())
    ensures allocResult.HasValue() ==>
              && err.None?
              && gpu.trace == old(gpu.trace) + [AllocateCommandBuffer, Begin(true),
                   Command.CopyBuffer(src, dst, BufferCopy(0, 0, size)), End, Submit, WaitIdle]
    ensures !allocResult.HasValue() ==>
              err == Some(VkError(ALLOCATE_FAILED, allocResult.Name())) && gpu.trace == old(gpu.trace)
              && gpu.allocator.contents == old(gpu.allocator.contents)
    ensures allocResult.HasValue() && src in old(gpu.allocator.contents) && dst in old(gpu.allocator.contents)
            && size <= |old(gpu.allocator.contents)[src]| && |old(gpu.allocator.contents)[dst]| == size ==>
              gpu.allocator.contents == old(gpu.allocator.contents)[dst := old(gpu.allocator.contents)[src][..size]]
  {
    err := gpu.BeginSingleTimeCommands(allocResult);
    if err.Some? {
      return;
    }
    var c := Command.CopyBuffer(src, dst, BufferCopy(0, 0, size));
    gpu.Record(c);
    gpu.EndSingleTimeCommands();
    var m := old(gpu.allocator.contents);
    ExecuteSingle(DeviceState(m, old(gpu.layouts)), c);
    if src in m && dst in m && size <= |m[src]| && |m[dst]| == size {
      CopyWholeBuffer(DeviceState(m, old(gpu.layouts)), src, dst, size);
    }
  }
}
