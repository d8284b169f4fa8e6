/** Command buffers and the graphics queue. Recorded commands are kept as
    a trace; a submitted batch takes effect on device memory and on image
    layouts when the queue has gone idle, which is when every helper of the
    renderer returns. */
module Commands {
  import opened Outcomes
  import opened Vk
  import Vma

  /** A `vk::ImageSubresourceRange`; for a copy it is the
      `vk::ImageSubresourceLayers` with `levelCount` 1 from `baseMipLevel`. */
  datatype SubresourceRange = SubresourceRange(aspect: Aspect, baseMipLevel: nat, levelCount: nat,
                                               baseArrayLayer: nat, layerCount: nat)

  /** A `vk::ImageMemoryBarrier2` with queue-family ownership left ignored.
      An empty access set is the empty mask `{}`. */
  datatype ImageBarrier = ImageBarrier(srcStage: set<Stage>, srcAccess: set<Access>,
                                       dstStage: set<Stage>, dstAccess: set<Access>,
                                       oldLayout: ImageLayout, newLayout: ImageLayout,
                                       image: nat, range: SubresourceRange)

  /** A `vk::BufferCopy`. */
  datatype BufferCopy = BufferCopy(srcOffset: nat, dstOffset: nat, size: nat)

  datatype Offset3D = Offset3D(x: int, y: int, z: int)
  datatype Extent3D = Extent3D(width: nat, height: nat, depth: nat)

  /** A `vk::BufferImageCopy2`. */
  datatype BufferImageCopy = BufferImageCopy(bufferOffset: nat, bufferRowLength: nat, bufferImageHeight: nat,
                                             subresource: SubresourceRange,
                                             imageOffset: Offset3D, imageExtent: Extent3D)

  datatype IndexType = Uint16 | Uint32

  datatype Command =
    | AllocateCommandBuffer
    | Begin(oneTimeSubmit: bool)
    | PipelineBarrier(barrier: ImageBarrier)
    | CopyBuffer(src: nat, dst: nat, region: BufferCopy)
    | CopyBufferToImage(src: nat, dst: nat, dstLayout: ImageLayout, imageRegion: BufferImageCopy)
    | BeginRendering(view: nat, attachmentLayout: ImageLayout, renderArea: Extent2D)
    | BindPipeline
    | BindVertexBuffer(vertexBuffer: nat)
    | BindIndexBuffer(indexBuffer: nat, indexType: IndexType)
    | SetViewport(viewport: Extent2D)
    | SetScissor(scissor: Extent2D)
    | BindDescriptorSets
    | PushConstants(objIdx: nat, textureIdx: nat)
    | DrawIndexed(indexCount: nat, instanceCount: nat, firstIndex: nat, vertexOffset: int, firstInstance: nat)
    | EndRendering
    | End
    | Submit
    | WaitIdle

  /** Bytes per texel of `R8G8B8A8`, the one format copied into an image. */
  const TEXEL_BYTES: nat := 4

  /** The bytes a tightly packed buffer-to-image copy reads. */
  function RegionBytes(region: BufferImageCopy): nat {
    region.imageExtent.width * region.imageExtent.height * region.imageExtent.depth * TEXEL_BYTES
  }

  /** What the device holds: the bytes of every allocation and the layout
      of every image. */
  datatype DeviceState = DeviceState(memory: map<nat, seq<bv8>>, layouts: map<nat, ImageLayout>)

  /** The effect of executing one command. A buffer copy replaces the
      destination range with the source range; a buffer-to-image copy gives
      the image the bytes it reads (the renderer's copies cover the whole of
      mip level 0); a barrier moves the image to its new layout. A copy out
      of range is invalid usage and is modelled as having no effect. */
  function Execute(state: DeviceState, c: Command): (r: DeviceState)
    ensures r.memory.Keys == state.memory.Keys
    ensures !c.PipelineBarrier? ==> r.layouts == state.layouts
    ensures !(c.CopyBuffer? || c.CopyBufferToImage?) ==> r.memory == state.memory
  {
    match c
    case PipelineBarrier(b) => state.(layouts := state.layouts[b.image := b.newLayout])
    case CopyBuffer(src, dst, BufferCopy(srcOffset, dstOffset, n)) =>
      var m := state.memory;
      if src in m && dst in m && srcOffset + n <= |m[src]| && dstOffset + n <= |m[dst]| then
        state.(memory := m[dst := m[dst][..dstOffset] + m[src][srcOffset..srcOffset + n] + m[dst][dstOffset + n..]])
      else state
    case CopyBufferToImage(src, dst, _, region) =>
      var m := state.memory;
      var n := RegionBytes(region);
      if src in m && dst in m && region.bufferOffset + n <= |m[src]| then
        state.(memory := m[dst := m[src][region.bufferOffset..region.bufferOffset + n]])
      else state
    case _ => state
  }

  /** Executing a batch in order. */
  function ExecuteAll(state: DeviceState, cs: seq<Command>): (r: DeviceState)
    ensures r.memory.Keys == state.memory.Keys
    decreases |cs|
  {
    if cs == [] then state else ExecuteAll(Execute(state, cs[0]), cs[1..])
  }

  /** A batch of one command has that command's effect. */
  lemma ExecuteSingle(state: DeviceState, c: Command)
    ensures ExecuteAll(state, [c]) == Execute(state, c)
  {
    assert [c][1..] == [];
  }

  /** A batch that copies a whole buffer range from offset 0 onto offset 0
      leaves the destination holding the source's first `n` bytes, when the
      destination is exactly `n` bytes long. */
  lemma CopyWholeBuffer(state: DeviceState, src: nat, dst: nat, n: nat)
    requires src in state.memory && dst in state.memory
    requires n <= |state.memory[src]| && |state.memory[dst]| == n
    ensures ExecuteAll(state, [CopyBuffer(src, dst, BufferCopy(0, 0, n))]).memory
              == state.memory[dst := state.memory[src][..n]]
    ensures ExecuteAll(state, [CopyBuffer(src, dst, BufferCopy(0, 0, n))]).layouts == state.layouts
  {
    var c := CopyBuffer(src, dst, BufferCopy(0, 0, n));
    var m := state.memory;
    var after := Execute(state, c);
    assert after == state.(memory := m[dst := m[dst][..0] + m[src][0..n] + m[dst][n..]]);
    SpliceWhole(m[dst], m[src], n);
    ExecuteSingle(state, c);
  }

  /** Overwriting the whole of an `n`-byte destination from offset 0. */
  lemma SpliceWhole<T>(d: seq<T>, s: seq<T>, n: nat)
    requires |d| == n <= |s|
    ensures d[..0] + s[0..n] + d[n..] == s[..n]
  {
    assert d[..0] == [] && d[n..] == [];
  }

  const ALLOCATE_FAILED := "Failed to allocate command buffer"

  /** The graphics queue and the command pool of `GpuContext`, with the
      one-time command buffer of `begin_single_time_commands` /
      `end_single_time_commands`. */
  class GpuContext {
    const allocator: Vma.Allocator
    /** Every command allocated, recorded, submitted or waited for, in order. */
    var trace: seq<Command>
    /** A one-time command buffer is open for recording. */
    var recording: bool
    /** What has been recorded into it since `Begin`. */
    var pending: seq<Command>
    /** The layout each image is in once the queue is idle. */
    var layouts: map<nat, ImageLayout>

    ghost predicate Valid()
      reads this, allocator
    {
      allocator.Valid() && (!recording ==> pending == [])
    }

    constructor (allocator: Vma.Allocator)
      requires allocator.Valid()
      ensures Valid() && this.allocator == allocator
      ensures trace == [] && !recording && layouts == map[]
    {
      this.allocator := allocator;
      trace, recording, pending, layouts := [], false, [], map[];
    }

    /** `begin_single_time_commands`: allocate one primary buffer and begin
        it for a single submission. `allocResult` is what
        `allocateCommandBuffers` returns. */
    method BeginSingleTimeCommands(allocResult: VkResult) returns (err: Option<Error>)
      requires Valid() && !recording
      modifies this
      ensures Valid() && layouts == old(layouts)
      ensures allocResult.HasValue() ==>
                err.None? && recording && pending == [] && trace == old(trace) + [AllocateCommandBuffer, Begin(true)]
      ensures !allocResult.HasValue() ==>
                err == Some(VkError(ALLOCATE_FAILED, allocResult.Name())) && !recording && trace == old(trace)
    {
      if !allocResult.HasValue() {
        return Some(VkError(ALLOCATE_FAILED, allocResult.Name()));
      }
      trace := trace + [AllocateCommandBuffer, Begin(true)];
      recording, pending := true, [];
      return None;
    }

    /** Recording one command into the open buffer. */
    method Record(c: Command)
      requires Valid() && recording
      modifies this
      ensures Valid() && recording && layouts == old(layouts)
      ensures trace == old(trace) + [c] && pending == old(pending) + [c]
    {
      trace := trace + [c];
      pending := pending + [c];
    }

    /** The open buffer going out of scope while an exception propagates:
        it is freed without having been submitted. */
    method Discard()
      requires Valid() && recording
      modifies this
      ensures Valid() && !recording && trace == old(trace) && layouts == old(layouts)
    {
      recording, pending := false, [];
    }

    /** `end_single_time_commands`: end the buffer, submit it and block
        until the queue is idle, by which time every recorded command has
        taken effect. */
    method EndSingleTimeCommands()
      requires Valid() && recording
      modifies this, allocator
      ensures Valid() && !recording
      ensures trace == old(trace) + [End, Submit, WaitIdle]
      ensures DeviceState(allocator.contents, layouts)
                == ExecuteAll(DeviceState(old(allocator.contents), old(layouts)), old(pending))
      ensures allocator.Ledger() == old(allocator.Ledger())
    {
      trace := trace + [End, Submit, WaitIdle];
      var after := ExecuteAll(DeviceState(allocator.contents, layouts), pending);
      allocator.contents := after.memory;
      layouts := after.layouts;
      recording, pending := false, [];
    }
  }
}
