/** `Vorn`, the predecessor of `Velo`: an index and a vertex buffer
    uploaded through staging buffers, one mapped uniform buffer per frame
    in flight, and a teardown that empties every wrapper before the
    allocator is destroyed. It has no depth or texture images. */
module VornApp {
  import opened Outcomes
  import opened Vk
  import opened Commands
  import opened Search
  import Vma
  import Resources
  import Swapchain
  import VeloApp
  import Legacy

  class Vorn {
    const gpu: GpuContext
    const swapchain: Swapchain.SwapchainContext
    /** `MAX_FRAMES_IN_FLIGHT` */
    const maxFrames: nat
    const indexBuff: Vma.VmaBuffer
    const vertexBuff: Vma.VmaBuffer
    var uniformBuffs: seq<Vma.VmaBuffer>
    var uniformBuffsMapped: seq<nat>
    /** The descriptor writes issued through `updateDescriptorSets`, oldest first. */
    var descriptorWrites: seq<Legacy.DescriptorWrite>
    var teardown: seq<VeloApp.TeardownEvent>

    /** Every `VmaBuffer` the renderer owns. */
    function Buffers(): seq<Vma.VmaBuffer>
      reads this
    {
      [indexBuff, vertexBuff] + uniformBuffs
    }

    /** Every live allocation is held by one of the renderer's buffers, each
        a different object. */
    ghost predicate Valid()
      reads this, gpu, gpu.allocator, Buffers()
    {
      && gpu.Valid() && !gpu.recording
      && Resources.Accounts(gpu.allocator, Buffers(), [])
      && Distinct(Buffers())
    }

    /** The members as the constructor leaves them: both buffers empty, no
        uniform buffers yet. */
    constructor (gpu: GpuContext, swapchain: Swapchain.SwapchainContext, maxFrames: nat)
      requires gpu.Valid() && !gpu.recording && gpu.allocator.live == {}
      ensures Valid() && this.gpu == gpu && this.swapchain == swapchain && this.maxFrames == maxFrames
      ensures indexBuff.buffer == 0 && vertexBuff.buffer == 0
      ensures uniformBuffs == [] && uniformBuffsMapped == [] && descriptorWrites == [] && teardown == []
    {
      this.gpu := gpu;
      this.swapchain := swapchain;
      this.maxFrames := maxFrames;
      var both := VeloApp.EmptyBuffers(2);
      indexBuff, vertexBuff := both[0], both[1];
      uniformBuffs, uniformBuffsMapped, descriptorWrites, teardown := [], [], [], [];
      new;
      assert Buffers() == both;
      VeloApp.EmptyAccounts(gpu.allocator, both, []);
    }

    /** `create_vertex_buffer`: `vertexBytes` are the vertices as laid out
        in memory, staged and copied into a device-local buffer. */
    method CreateVertexBuffer(vertexBytes: seq<bv8>, results: VeloApp.UploadResults) returns (err: Option<Error>)
      requires Valid() && !gpu.allocator.destroyed
      requires results.stagingAddress != 0 && results.targetAddress != 0 && |results.commandResults| >= 1
      modifies gpu, gpu.allocator, vertexBuff
      ensures Valid() && !gpu.allocator.destroyed
      ensures gpu.allocator.live <= old(gpu.allocator.live) + {vertexBuff.allocation}
      ensures err.None? <==> results.AllSucceed(1)
      ensures results.stagingResult != Success || results.targetResult != Success ==>
                gpu.allocator.live == old(gpu.allocator.live) && gpu.trace == old(gpu.trace)
      ensures err.None? ==>
                && vertexBuff.allocation in gpu.allocator.contents && vertexBuff.allocation in gpu.allocator.info
                && gpu.allocator.contents[vertexBuff.allocation] == vertexBytes
                && gpu.allocator.info[vertexBuff.allocation].usage == BUFFER_USAGE_VERTEX | BUFFER_USAGE_TRANSFER_DST
    {
      err := VeloApp.CreateDeviceLocal(gpu, Buffers(), [], 1, vertexBytes, BUFFER_USAGE_VERTEX, results);
    }

    /** `create_index_buffer`: `indexBytes` are the 16-bit indices as laid
        out in memory, staged and copied into a device-local buffer. */
    method CreateIndexBuffer(indexBytes: seq<bv8>, results: VeloApp.UploadResults) returns (err: Option<Error>)
      requires Valid() && !gpu.allocator.destroyed
      requires results.stagingAddress != 0 && results.targetAddress != 0 && |results.commandResults| >= 1
      modifies gpu, gpu.allocator, indexBuff
      ensures Valid() && !gpu.allocator.destroyed
      ensures gpu.allocator.live <= old(gpu.allocator.live) + {indexBuff.allocation}
      ensures err.None? <==> results.AllSucceed(1)
      ensures results.stagingResult != Success || results.targetResult != Success ==>
                gpu.allocator.live == old(gpu.allocator.live) && gpu.trace == old(gpu.trace)
      ensures err.None? ==>
                && indexBuff.allocation in gpu.allocator.contents && indexBuff.allocation in gpu.allocator.info
                && gpu.allocator.contents[indexBuff.allocation] == indexBytes
                && gpu.allocator.info[indexBuff.allocation].usage == BUFFER_USAGE_INDEX | BUFFER_USAGE_TRANSFER_DST
    {
      err := VeloApp.CreateDeviceLocal(gpu, Buffers(), [], 0, indexBytes, BUFFER_USAGE_INDEX, results);
    }

    /** `create_uniform_buffers`: both vectors are cleared (the old uniform
        buffers are reset, freeing their allocations), then one mapped
        uniform buffer of `uboSize` bytes is made per frame in flight, its
        pointer pushed, and its descriptor written at binding 0, element
        `i`. `results[i]` and `addresses[i]` are what the allocator answers
        for buffer `i`; the first failure throws. */
    method CreateUniformBuffers(uboSize: nat, results: seq<VkResult>, addresses: seq<nat>) returns (err: Option<Error>)
      requires Valid() && !gpu.allocator.destroyed
      requires |results| >= maxFrames && |addresses| >= maxFrames
      requires forall k :: 0 <= k < maxFrames ==> addresses[k] != 0
      modifies this`uniformBuffs, this`uniformBuffsMapped, this`descriptorWrites, gpu.allocator, uniformBuffs
      ensures Valid() && !gpu.allocator.destroyed
      ensures forall k :: 0 <= k < |old(uniformBuffs)| ==> old(uniformBuffs)[k].buffer == 0
      ensures match FirstIndex(results[..maxFrames], Legacy.Failed)
              case None => err.None? && |uniformBuffs| == maxFrames
              case Some(i) => err == Some(VkError(Vma.CREATE_FAILED, results[i].Name())) && |uniformBuffs| == i
      ensures |descriptorWrites| >= |old(descriptorWrites)|
      ensures descriptorWrites[..|old(descriptorWrites)|] == old(descriptorWrites)
      ensures Legacy.UniformsMade(uniformBuffs, uniformBuffsMapped, descriptorWrites[|old(descriptorWrites)|..],
                                  addresses, uboSize)
      ensures Legacy.UniformInfos(gpu.allocator.info, uniformBuffs, uboSize)
    {
      var buffs, mapped, writes;
      buffs, mapped, writes, err := RebuildUniforms(gpu.allocator, [indexBuff, vertexBuff], uniformBuffs,
                                                    maxFrames, uboSize, results, addresses);
      uniformBuffs, uniformBuffsMapped := buffs, mapped;
      descriptorWrites := descriptorWrites + writes;
      assert descriptorWrites[|old(descriptorWrites)|..] == writes;
      assert !gpu.recording && gpu.Valid();
    }

    /** `cleanup`: the swapchain is cleaned up; the uniform buffers are
        reset as their vector is cleared, then `indexBuff` and
        `vertexBuff`; only then, with nothing left live, is the allocator
        destroyed, and the surface is cleared before the window is
        destroyed. Every allocation live at the start is freed, once. */
    method Cleanup()
      requires Valid() && !gpu.allocator.destroyed
      modifies this, swapchain, gpu.allocator, Buffers()
      ensures gpu.allocator.destroyed && gpu.allocator.live == {}
      ensures gpu.allocator.freed == old(gpu.allocator.freed) + old(gpu.allocator.live)
      ensures uniformBuffs == [] && indexBuff.buffer == 0 && vertexBuff.buffer == 0
      ensures forall k :: 0 <= k < |old(uniformBuffs)| ==> old(uniformBuffs)[k].buffer == 0
      ensures swapchain.events == old(swapchain.events) + [Swapchain.ViewsCleared, Swapchain.SwapchainReleased]
      ensures teardown == old(teardown) + [VeloApp.SwapchainCleanedUp, VeloApp.AllocatorDestroyed,
                                           VeloApp.SurfaceCleared, VeloApp.WindowDestroyed, VeloApp.GlfwTerminated]
    {
      swapchain.Cleanup();
      teardown := teardown + [VeloApp.SwapchainCleanedUp];
      ReleaseResources();
      teardown := teardown + [VeloApp.AllocatorDestroyed, VeloApp.SurfaceCleared,
                              VeloApp.WindowDestroyed, VeloApp.GlfwTerminated];
    }

    /** The part of `cleanup` from `uniformBuffs.clear()` to
        `vmaDestroyAllocator`. */
    method ReleaseResources()
      requires Valid() && !gpu.allocator.destroyed
      modifies this, gpu.allocator, Buffers()
      ensures gpu.allocator.destroyed && gpu.allocator.live == {}
      ensures gpu.allocator.freed == old(gpu.allocator.freed) + old(gpu.allocator.live)
      ensures uniformBuffs == [] && indexBuff.buffer == 0 && vertexBuff.buffer == 0
      ensures forall k :: 0 <= k < |old(uniformBuffs)| ==> old(uniformBuffs)[k].buffer == 0
      ensures teardown == old(teardown)
    {
      var all := Buffers();
      assert all[0] == indexBuff && all[1] == vertexBuff;
      assert forall k :: 0 <= k < |uniformBuffs| ==> uniformBuffs[k] == all[k + 2];
      ReleaseTailFirst(gpu.allocator, all, 2);
      uniformBuffs := [];
    }
  }

  /** The body of `create_uniform_buffers`: the old `uniforms` are reset,
      then `maxFrames` new ones are made beside `members`. */
  method RebuildUniforms(allocator: Vma.Allocator, members: seq<Vma.VmaBuffer>, uniforms: seq<Vma.VmaBuffer>,
                         maxFrames: nat, uboSize: nat, results: seq<VkResult>, addresses: seq<nat>)
    returns (buffs: seq<Vma.VmaBuffer>, mapped: seq<nat>, writes: seq<Legacy.DescriptorWrite>, err: Option<Error>)
    requires Resources.Accounts(allocator, members + uniforms, []) && Distinct(members + uniforms)
    requires !allocator.destroyed
    requires |results| >= maxFrames && |addresses| >= maxFrames
    requires forall k :: 0 <= k < maxFrames ==> addresses[k] != 0
    modifies uniforms, allocator
    ensures Resources.Accounts(allocator, members + buffs, []) && Distinct(members + buffs)
    ensures !allocator.destroyed
    ensures forall k :: 0 <= k < |uniforms| ==> uniforms[k].buffer == 0
    ensures match FirstIndex(results[..maxFrames], Legacy.Failed)
            case None => err.None? && |buffs| == maxFrames
            case Some(i) => err == Some(VkError(Vma.CREATE_FAILED, results[i].Name())) && |buffs| == i
    ensures Legacy.UniformsMade(buffs, mapped, writes, addresses, uboSize)
    ensures Legacy.UniformInfos(allocator.info, buffs, uboSize)
  {
    ClearUniforms(allocator, members, uniforms);
    buffs, mapped, writes, err := Legacy.CreateUniformBuffersFrom(allocator, members, [], maxFrames, uboSize,
                                                                  results, addresses);
  }

  /** `uniformBuffs.clear()`: each of `uniforms` is reset in order,
      leaving `members` alone accounting for what is live. */
  method ClearUniforms(allocator: Vma.Allocator, members: seq<Vma.VmaBuffer>, uniforms: seq<Vma.VmaBuffer>)
    requires Resources.Accounts(allocator, members + uniforms, []) && Distinct(members + uniforms)
    modifies uniforms, allocator
    ensures Resources.Accounts(allocator, members, []) && Distinct(members)
    ensures forall k :: 0 <= k < |uniforms| ==> uniforms[k].buffer == 0
    ensures Resources.ReleasedSince(allocator, old(allocator.live), old(allocator.freed))
    ensures allocator.destroyed == old(allocator.destroyed)
  {
    var all := members + uniforms;
    Resources.ReleaseBuffers(allocator, all, [], |members|, |all|);
    Resources.AccountsPrefix(allocator, all, [], |members|);
    assert all[..|members|] == members;
    assert forall k :: 0 <= k < |uniforms| ==> uniforms[k] == all[k + |members|];
  }

  /** `all[first..]` are reset in order, then `all[..first]`, and the
      allocator, with nothing left live, is destroyed. */
  method ReleaseTailFirst(allocator: Vma.Allocator, all: seq<Vma.VmaBuffer>, first: nat)
    requires Resources.Accounts(allocator, all, []) && Distinct(all) && first <= |all| && !allocator.destroyed
    modifies all, allocator
    ensures allocator.destroyed && allocator.live == {}
    ensures allocator.freed == old(allocator.freed) + old(allocator.live)
    ensures forall k :: 0 <= k < |all| ==> all[k].buffer == 0
  {
    ghost var live0, freed0 := allocator.live, allocator.freed;
    Resources.ReleaseBuffers(allocator, all, [], first, |all|);
    ghost var live1, freed1 := allocator.live, allocator.freed;
    assert forall k :: first <= k < |all| ==> all[k] !in all[0..first];
    Resources.ReleaseBuffers(allocator, all, [], 0, first);
    Resources.NothingLive(allocator, all, []);
    Resources.ReleasedTwice(live0, freed0, live1, freed1, allocator.live, allocator.freed);
    Resources.ReleasedEverything(live0, freed0, allocator.live, allocator.freed);
    allocator.Destroy();
  }
}
