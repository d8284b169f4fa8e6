/** Ownership of device memory through the Vulkan Memory Allocator: the
    allocator hands out allocations and frees them; `VmaBuffer` and
    `VmaImage` are move-only owners of one allocation each, freeing it in
    their destructor.

    Handles are natural numbers, 0 standing for `VK_NULL_HANDLE` and
    `nullptr`. The model allocator uses one fresh number per allocation for
    both the `VmaAllocation` and the buffer or image bound to it. Its ghost
    `owner` map names, for every live allocation, the one wrapper object
    responsible for freeing it. */
module Vma {
  import opened Outcomes
  import opened Vk

  /** The creation parameters the allocator was given. */
  datatype ResourceInfo =
    | BufferInfo(size: nat, usage: bv32, memoryUsage: nat, flags: bv32)
    | ImageInfo(width: nat, height: nat, depth: nat, mipLevels: nat, arrayLayers: nat,
                tiling: ImageTiling, usage: bv32, format: Format, memoryUsage: nat, flags: bv32)

  const CREATE_FAILED := "Failed to create vma buffer"

  /** What a fresh allocation holds. VMA does not clear memory; the model
      starts a buffer at `size` zero bytes and an image at no bytes, and no
      property below depends on the values. */
  function Initial(request: ResourceInfo): (bytes: seq<bv8>)
    ensures request.BufferInfo? ==> |bytes| == request.size
    ensures request.ImageInfo? ==> bytes == []
  {
    match request
    case BufferInfo(size, _, _, _) => seq(size, _ => 0 as bv8)
    case ImageInfo(_, _, _, _, _, _, _, _, _, _) => []
  }

  /** The allocator's bookkeeping, apart from memory contents. */
  datatype AllocatorLedger = AllocatorLedger(live: set<nat>, freed: set<nat>, next: nat, destroyed: bool,
                                             info: map<nat, ResourceInfo>, mappedData: map<nat, nat>,
                                             owner: map<nat, object>)

  class Allocator {
    /** Allocations created and not yet freed. */
    var live: set<nat>
    /** Allocations already freed. */
    var freed: set<nat>
    /** The next fresh handle. */
    var next: nat
    /** `vmaDestroyAllocator` has run. */
    var destroyed: bool
    /** Creation parameters of every allocation ever made. */
    var info: map<nat, ResourceInfo>
    /** `VmaAllocationInfo::pMappedData` of every allocation ever made. */
    var mappedData: map<nat, nat>
    /** The bytes of every allocation ever made. */
    var contents: map<nat, seq<bv8>>
    /** The wrapper responsible for each live allocation. */
    ghost var owner: map<nat, object>

    ghost predicate Valid()
      reads this
    {
      && 1 <= next
      && live !! freed
      && (forall h :: h in live ==> 1 <= h < next)
      && (forall h :: h in freed ==> 1 <= h < next)
      && info.Keys == live + freed
      && mappedData.Keys == live + freed
      && contents.Keys == live + freed
      && owner.Keys == live
      && (destroyed ==> live == {})
    }

    /** Everything the allocator records except the bytes it holds. */
    ghost function Ledger(): AllocatorLedger
      reads this
    {
      AllocatorLedger(live, freed, next, destroyed, info, mappedData, owner)
    }

    /** `vmaCreateAllocator`. */
    constructor ()
      ensures Valid() && !destroyed
      ensures live == {} && freed == {} && owner == map[]
    {
      live, freed, next, destroyed := {}, {}, 1, false;
      info, mappedData, contents, owner := map[], map[], map[], map[];
    }

    /** `vmaCreateBuffer` / `vmaCreateImage` with outcome `res`. A successful
        call yields a fresh allocation owned by `by`, persistently mapped
        at `address` exactly when the request carries the MAPPED flag. */
    method Allocate(res: VkResult, request: ResourceInfo, address: nat, ghost holder: object) returns (h: nat)
      requires Valid() && !destroyed
      requires address != 0
      modifies this
      ensures Valid() && !destroyed
      ensures res != Success ==> h == 0 && unchanged(this)
      ensures res == Success ==> h == old(next) && h !in old(live) + old(freed)
      ensures res == Success ==> live == old(live) + {h} && freed == old(freed)
      ensures res == Success ==> owner == old(owner)[h := holder] && info == old(info)[h := request]
      ensures res == Success ==>
                mappedData == old(mappedData)[h := if HasAll(request.flags, VMA_MAPPED) then address else 0]
      ensures res == Success ==> contents == old(contents)[h := Initial(request)]
    {
      if res != Success {
        return 0;
      }
      h := next;
      next := next + 1;
      live := live + {h};
      info := info[h := request];
      mappedData := mappedData[h := if HasAll(request.flags, VMA_MAPPED) then address else 0];
      contents := contents[h := Initial(request)];
      owner := owner[h := holder];
    }

    /** Writing `bytes` into a live allocation: a host `memcpy` through a
        mapping, or a transfer the device has completed. */
    method Store(h: nat, bytes: seq<bv8>)
      requires Valid() && h in live
      modifies this
      ensures Valid()
      ensures contents == old(contents)[h := bytes]
      ensures live == old(live) && freed == old(freed) && owner == old(owner)
      ensures destroyed == old(destroyed) && next == old(next)
      ensures info == old(info) && mappedData == old(mappedData)
    {
      contents := contents[h := bytes];
    }

    /** `vmaDestroyBuffer` / `vmaDestroyImage`: only a live allocation can be
        freed, so none is freed twice. */
    method Free(h: nat)
      requires Valid() && h in live
      modifies this
      ensures Valid()
      ensures live == old(live) - {h} && freed == old(freed) + {h}
      ensures owner == old(owner) - {h}
      ensures destroyed == old(destroyed) && next == old(next)
      ensures info == old(info) && mappedData == old(mappedData) && contents == old(contents)
    {
      live := live - {h};
      freed := freed + {h};
      owner := owner - {h};
    }

    /** A move hands the allocation to another wrapper. */
    ghost method Transfer(h: nat, to: object)
      requires Valid() && h in live
      modifies this
      ensures Valid() && owner == old(owner)[h := to]
      ensures live == old(live) && freed == old(freed) && destroyed == old(destroyed) && next == old(next)
      ensures info == old(info) && mappedData == old(mappedData) && contents == old(contents)
    {
      owner := owner[h := to];
    }

    /** `vmaDestroyAllocator`: every allocation must have been freed. */
    method Destroy()
      requires Valid() && !destroyed && live == {}
      modifies this
      ensures Valid() && destroyed
      ensures live == old(live) && freed == old(freed) && owner == old(owner)
      ensures info == old(info) && mappedData == old(mappedData) && contents == old(contents)
    {
      destroyed := true;
    }
  }

  class VmaBuffer {
    var vmaAllocator: Allocator?
    /** `_buffer` */
    var buffer: nat
    /** `vmaAllocation` */
    var allocation: nat
    /** `mapped` */
    var mapped: nat

    /** A wrapper either holds nothing, or is the registered owner of a live
        buffer allocation whose mapping it records. */
    ghost predicate Valid()
      reads this, vmaAllocator
    {
      && (buffer == 0 ==> allocation == 0 && mapped == 0)
      && (buffer != 0 ==> Owns())
    }

    ghost predicate Owns()
      reads this, vmaAllocator
    {
      && vmaAllocator != null && vmaAllocator.Valid()
      && buffer == allocation && allocation in vmaAllocator.live
      && vmaAllocator.owner[allocation] == this
      && vmaAllocator.info[allocation].BufferInfo?
      && mapped == vmaAllocator.mappedData[allocation]
    }

    /** `VmaBuffer{}`: an empty wrapper. */
    constructor Empty()
      ensures Valid() && vmaAllocator == null && buffer == 0 && allocation == 0 && mapped == 0
    {
      vmaAllocator, buffer, allocation, mapped := null, 0, 0, 0;
    }

    /** The constructor: an exclusive buffer of `size` bytes. `res` is what
        `vmaCreateBuffer` returns and `address` where VMA maps the memory. */
    static method Create(allocator: Allocator, size: nat, usage: bv32, memoryUsage: nat, flags: bv32,
                         res: VkResult, address: nat)
      returns (r: Result<VmaBuffer>)
      requires allocator.Valid() && !allocator.destroyed && address != 0
      modifies allocator
      ensures allocator.Valid() && !allocator.destroyed
      ensures res != Success ==>
                && r == Err(VkError(CREATE_FAILED, res.Name())) && unchanged(allocator)
      ensures res == Success ==> r.Ok? && fresh(r.value) && r.value.Valid() && r.value.vmaAllocator == allocator
      ensures r.Ok? ==> r.value.buffer != 0 && r.value.allocation !in old(allocator.live) + old(allocator.freed)
      ensures r.Ok? ==> allocator.live == old(allocator.live) + {r.value.allocation}
      ensures r.Ok? ==> allocator.freed == old(allocator.freed)
      ensures r.Ok? ==> allocator.owner == old(allocator.owner)[r.value.allocation := r.value]
      ensures r.Ok? ==> allocator.info == old(allocator.info)[r.value.allocation := BufferInfo(size, usage, memoryUsage, flags)]
      ensures r.Ok? ==> allocator.contents
                          == old(allocator.contents)[r.value.allocation := Initial(BufferInfo(size, usage, memoryUsage, flags))]
      ensures r.Ok? ==> r.value.mapped == if HasAll(flags, VMA_MAPPED) then address else 0
      ensures r.Ok? ==> allocator.mappedData == old(allocator.mappedData)[r.value.allocation := r.value.mapped]
    {
      var b := new VmaBuffer.Empty();
      b.vmaAllocator := allocator;
      var h := allocator.Allocate(res, BufferInfo(size, usage, memoryUsage, flags), address, b);
      if res != Success {
        return Err(VkError(CREATE_FAILED, res.Name()));
      }
      b.buffer, b.allocation := h, h;
      b.mapped := allocator.mappedData[h];
      return Ok(b);
    }

    /** The move constructor: takes every field of `other` and leaves it
        empty, keeping its allocator. */
    constructor Move(other: VmaBuffer)
      requires other.Valid()
      modifies other, other.vmaAllocator
      ensures vmaAllocator == old(other.vmaAllocator) && buffer == old(other.buffer)
      ensures allocation == old(other.allocation) && mapped == old(other.mapped)
      ensures other.vmaAllocator == old(other.vmaAllocator)
      ensures other.buffer == 0 && other.allocation == 0 && other.mapped == 0
      ensures Valid() && other.Valid()
      ensures buffer != 0 ==> vmaAllocator.owner == old(other.vmaAllocator.owner)[allocation := this]
      ensures vmaAllocator != null ==>
                vmaAllocator.live == old(other.vmaAllocator.live) && vmaAllocator.freed == old(other.vmaAllocator.freed)
      ensures vmaAllocator != null ==>
                && vmaAllocator.info == old(other.vmaAllocator.info)
                && vmaAllocator.contents == old(other.vmaAllocator.contents)
                && vmaAllocator.mappedData == old(other.vmaAllocator.mappedData)
                && vmaAllocator.destroyed == old(other.vmaAllocator.destroyed)
    {
      vmaAllocator := other.vmaAllocator;
      buffer := other.buffer;
      allocation := other.allocation;
      mapped := other.mapped;
      new;
      if buffer != 0 {
        vmaAllocator.Transfer(allocation, this);
      }
      other.buffer, other.allocation, other.mapped := 0, 0, 0;
    }

    /** Move assignment. Assigning a wrapper to itself changes nothing;
        otherwise the buffer held so far is freed, `other`'s fields are
        taken and `other` is left empty. */
    method MoveAssign(other: VmaBuffer)
      requires Valid() && other.Valid()
      requires vmaAllocator != null && other.vmaAllocator != null ==> vmaAllocator == other.vmaAllocator
      modifies this, other, vmaAllocator, other.vmaAllocator
      ensures other == this ==> unchanged(this) && (vmaAllocator != null ==> unchanged(vmaAllocator))
      ensures other != this ==>
                && vmaAllocator == old(other.vmaAllocator) && buffer == old(other.buffer)
                && allocation == old(other.allocation) && mapped == old(other.mapped)
                && other.vmaAllocator == old(other.vmaAllocator)
                && other.buffer == 0 && other.allocation == 0 && other.mapped == 0
      ensures other != this && old(buffer) != 0 ==>
                && old(allocation) !in old(vmaAllocator).live
                && old(vmaAllocator).freed == old(vmaAllocator.freed) + {old(allocation)}
                && old(vmaAllocator).live == old(vmaAllocator.live) - {old(allocation)}
      ensures other != this && old(buffer) == 0 && old(vmaAllocator) != null ==>
                old(vmaAllocator).live == old(vmaAllocator.live)
                && old(vmaAllocator).freed == old(vmaAllocator.freed)
      ensures other != this && old(buffer) == 0 && old(other.vmaAllocator) != null ==>
                old(other.vmaAllocator).live == old(other.vmaAllocator.live)
                && old(other.vmaAllocator).freed == old(other.vmaAllocator.freed)
      ensures other != this && old(other.buffer) == 0 && old(buffer) != 0 ==>
                old(vmaAllocator).owner == old(vmaAllocator.owner) - {old(allocation)}
      ensures other != this && old(other.buffer) != 0 ==>
                vmaAllocator.owner == (if old(buffer) != 0 then old(other.vmaAllocator.owner) - {old(allocation)}
                                       else old(other.vmaAllocator.owner))[allocation := this]
      ensures old(vmaAllocator) != null ==>
                && old(vmaAllocator).info == old(vmaAllocator.info)
                && old(vmaAllocator).contents == old(vmaAllocator.contents)
                && old(vmaAllocator).mappedData == old(vmaAllocator.mappedData)
                && old(vmaAllocator).destroyed == old(vmaAllocator.destroyed)
      ensures old(other.vmaAllocator) != null ==>
                && old(other.vmaAllocator).info == old(other.vmaAllocator.info)
                && old(other.vmaAllocator).contents == old(other.vmaAllocator.contents)
                && old(other.vmaAllocator).mappedData == old(other.vmaAllocator.mappedData)
                && old(other.vmaAllocator).destroyed == old(other.vmaAllocator.destroyed)
      ensures Valid() && other.Valid()
    {
      if this == other {
        return;
      }
      if buffer != 0 && vmaAllocator != null {
        vmaAllocator.Free(allocation);
      }
      Adopt(other);
    }

    /** The second half of move assignment, once the old buffer is freed:
        take every field of `other` and leave it empty. */
    method Adopt(other: VmaBuffer)
      requires other.Valid() && other != this
      modifies this, other, other.vmaAllocator
      ensures vmaAllocator == old(other.vmaAllocator) && buffer == old(other.buffer)
      ensures allocation == old(other.allocation) && mapped == old(other.mapped)
      ensures other.vmaAllocator == old(other.vmaAllocator)
      ensures other.buffer == 0 && other.allocation == 0 && other.mapped == 0
      ensures Valid() && other.Valid()
      ensures buffer != 0 ==> vmaAllocator.owner == old(other.vmaAllocator.owner)[allocation := this]
      ensures vmaAllocator != null ==>
                && vmaAllocator.live == old(other.vmaAllocator.live) && vmaAllocator.freed == old(other.vmaAllocator.freed)
                && vmaAllocator.info == old(other.vmaAllocator.info) && vmaAllocator.contents == old(other.vmaAllocator.contents)
                && vmaAllocator.mappedData == old(other.vmaAllocator.mappedData)
                && vmaAllocator.destroyed == old(other.vmaAllocator.destroyed)
      ensures buffer == 0 && vmaAllocator != null ==> vmaAllocator.owner == old(other.vmaAllocator.owner)
    {
      buffer := other.buffer;
      mapped := other.mapped;
      vmaAllocator := other.vmaAllocator;
      allocation := other.allocation;
      if buffer != 0 {
        vmaAllocator.Transfer(allocation, this);
      }
      other.buffer, other.allocation, other.mapped := 0, 0, 0;
    }

    /** The destructor: frees the buffer only when the handle is non-null,
        so an empty or moved-from wrapper frees nothing. */
    method Destroy()
      requires Valid()
      modifies vmaAllocator
      ensures buffer != 0 ==> vmaAllocator.live == old(vmaAllocator.live) - {allocation}
      ensures buffer != 0 ==> vmaAllocator.freed == old(vmaAllocator.freed) + {allocation}
      ensures buffer != 0 ==> vmaAllocator.Valid() && vmaAllocator.owner == old(vmaAllocator.owner) - {allocation}
      ensures buffer == 0 && vmaAllocator != null ==> unchanged(vmaAllocator)
      ensures vmaAllocator != null ==>
                && vmaAllocator.info == old(vmaAllocator.info)
                && vmaAllocator.contents == old(vmaAllocator.contents)
                && vmaAllocator.mappedData == old(vmaAllocator.mappedData)
                && vmaAllocator.destroyed == old(vmaAllocator.destroyed)
    {
      if buffer != 0 {
        vmaAllocator.Free(allocation);
      }
    }

    /** `get()`, `buffer()` and `operator VkBuffer()`. */
    method Get() returns (h: nat)
      requires Valid()
      ensures h == buffer
      ensures h != 0 <==> Owns()
    {
      return buffer;
    }

    /** `allocation()` */
    method Allocation() returns (a: nat)
      requires Valid()
      ensures a == allocation
      ensures a != 0 <==> Owns()
    {
      return allocation;
    }

    /** `mapped_data()`: the mapping VMA reported for the allocation. */
    method MappedData() returns (p: nat)
      requires Valid()
      ensures p == mapped
      ensures buffer != 0 ==> p == vmaAllocator.mappedData[allocation]
      ensures buffer == 0 ==> p == 0
    {
      return mapped;
    }
  }

  class VmaImage {
    var vmaAllocator: Allocator?
    /** `_image` */
    var image: nat
    /** `vmaAllocation` */
    var allocation: nat
    /** `mapped` */
    var mapped: nat

    ghost predicate Valid()
      reads this, vmaAllocator
    {
      && (image == 0 ==> allocation == 0 && mapped == 0)
      && (image != 0 ==> Owns())
    }

    ghost predicate Owns()
      reads this, vmaAllocator
    {
      && vmaAllocator != null && vmaAllocator.Valid()
      && image == allocation && allocation in vmaAllocator.live
      && vmaAllocator.owner[allocation] == this
      && vmaAllocator.info[allocation].ImageInfo?
      && mapped == vmaAllocator.mappedData[allocation]
    }

    /** `VmaImage{}`: an empty wrapper. */
    constructor Empty()
      ensures Valid() && vmaAllocator == null && image == 0 && allocation == 0 && mapped == 0
    {
      vmaAllocator, image, allocation, mapped := null, 0, 0, 0;
    }

    /** The constructor: a 2D image of `width` x `height` x 1 texels with
        `mipLevels` levels, one array layer, one sample, optimal tiling and
        exclusive sharing. */
    static method Create(allocator: Allocator, width: nat, height: nat, mipLevels: nat, usage: bv32, format: Format,
                         memoryUsage: nat, flags: bv32, res: VkResult, address: nat)
      returns (r: Result<VmaImage>)
      requires allocator.Valid() && !allocator.destroyed && address != 0
      modifies allocator
      ensures allocator.Valid() && !allocator.destroyed
      ensures res != Success ==>
                && r == Err(VkError(CREATE_FAILED, res.Name())) && unchanged(allocator)
      ensures res == Success ==> r.Ok? && fresh(r.value) && r.value.Valid() && r.value.vmaAllocator == allocator
      ensures r.Ok? ==> r.value.image != 0 && r.value.allocation !in old(allocator.live) + old(allocator.freed)
      ensures r.Ok? ==> allocator.live == old(allocator.live) + {r.value.allocation}
      ensures r.Ok? ==> allocator.freed == old(allocator.freed)
      ensures r.Ok? ==> allocator.owner == old(allocator.owner)[r.value.allocation := r.value]
      ensures r.Ok? ==> allocator.info == old(allocator.info)[r.value.allocation :=
                          ImageInfo(width, height, 1, mipLevels, 1, Optimal, usage, format, memoryUsage, flags)]
      ensures r.Ok? ==> allocator.contents == old(allocator.contents)[r.value.allocation := []]
      ensures r.Ok? ==> r.value.mapped == if HasAll(flags, VMA_MAPPED) then address else 0
      ensures r.Ok? ==> allocator.mappedData == old(allocator.mappedData)[r.value.allocation := r.value.mapped]
    {
      var img := new VmaImage.Empty();
      img.vmaAllocator := allocator;
      var request := ImageInfo(width, height, 1, mipLevels, 1, Optimal, usage, format, memoryUsage, flags);
      var h := allocator.Allocate(res, request, address, img);
      if res != Success {
        return Err(VkError(CREATE_FAILED, res.Name()));
      }
      img.image, img.allocation := h, h;
      img.mapped := allocator.mappedData[h];
      return Ok(img);
    }

    /** The move constructor. */
    constructor Move(other: VmaImage)
      requires other.Valid()
      modifies other, other.vmaAllocator
      ensures vmaAllocator == old(other.vmaAllocator) && image == old(other.image)
      ensures allocation == old(other.allocation) && mapped == old(other.mapped)
      ensures other.vmaAllocator == old(other.vmaAllocator)
      ensures other.image == 0 && other.allocation == 0 && other.mapped == 0
      ensures Valid() && other.Valid()
      ensures image != 0 ==> vmaAllocator.owner == old(other.vmaAllocator.owner)[allocation := this]
      ensures vmaAllocator != null ==>
                vmaAllocator.live == old(other.vmaAllocator.live) && vmaAllocator.freed == old(other.vmaAllocator.freed)
      ensures vmaAllocator != null ==>
                && vmaAllocator.info == old(other.vmaAllocator.info)
                && vmaAllocator.contents == old(other.vmaAllocator.contents)
                && vmaAllocator.mappedData == old(other.vmaAllocator.mappedData)
                && vmaAllocator.destroyed == old(other.vmaAllocator.destroyed)
    {
      vmaAllocator := other.vmaAllocator;
      image := other.image;
      allocation := other.allocation;
      new;
      mapped := other.mapped;
      if image != 0 {
        vmaAllocator.Transfer(allocation, this);
      }
      other.image, other.allocation, other.mapped := 0, 0, 0;
    }

    /** Move assignment: a no-op on itself; otherwise frees the image held
        so far, takes `other`'s fields and leaves `other` empty. */
    method MoveAssign(other: VmaImage)
      requires Valid() && other.Valid()
      requires vmaAllocator != null && other.vmaAllocator != null ==> vmaAllocator == other.vmaAllocator
      modifies this, other, vmaAllocator, other.vmaAllocator
      ensures other == this ==> unchanged(this) && (vmaAllocator != null ==> unchanged(vmaAllocator))
      ensures other != this ==>
                && vmaAllocator == old(other.vmaAllocator) && image == old(other.image)
                && allocation == old(other.allocation) && mapped == old(other.mapped)
                && other.vmaAllocator == old(other.vmaAllocator)
                && other.image == 0 && other.allocation == 0 && other.mapped == 0
      ensures other != this && old(image) != 0 ==>
                && old(allocation) !in old(vmaAllocator).live
                && old(vmaAllocator).freed == old(vmaAllocator.freed) + {old(allocation)}
                && old(vmaAllocator).live == old(vmaAllocator.live) - {old(allocation)}
      ensures other != this && old(image) == 0 && old(vmaAllocator) != null ==>
                old(vmaAllocator).live == old(vmaAllocator.live)
                && old(vmaAllocator).freed == old(vmaAllocator.freed)
      ensures other != this && old(image) == 0 && old(other.vmaAllocator) != null ==>
                old(other.vmaAllocator).live == old(other.vmaAllocator.live)
                && old(other.vmaAllocator).freed == old(other.vmaAllocator.freed)
      ensures other != this && old(other.image) == 0 && old(image) != 0 ==>
                old(vmaAllocator).owner == old(vmaAllocator.owner) - {old(allocation)}
      ensures other != this && old(other.image) != 0 ==>
                vmaAllocator.owner == (if old(image) != 0 then old(other.vmaAllocator.owner) - {old(allocation)}
                                       else old(other.vmaAllocator.owner))[allocation := this]
      ensures old(vmaAllocator) != null ==>
                && old(vmaAllocator).info == old(vmaAllocator.info)
                && old(vmaAllocator).contents == old(vmaAllocator.contents)
                && old(vmaAllocator).mappedData == old(vmaAllocator.mappedData)
                && old(vmaAllocator).destroyed == old(vmaAllocator.destroyed)
      ensures old(other.vmaAllocator) != null ==>
                && old(other.vmaAllocator).info == old(other.vmaAllocator.info)
                && old(other.vmaAllocator).contents == old(other.vmaAllocator.contents)
                && old(other.vmaAllocator).mappedData == old(other.vmaAllocator.mappedData)
                && old(other.vmaAllocator).destroyed == old(other.vmaAllocator.destroyed)
      ensures Valid() && other.Valid()
    {
      if this == other {
        return;
      }
      if image != 0 && vmaAllocator != null {
        vmaAllocator.Free(allocation);
      }
      Adopt(other);
    }

    /** The second half of move assignment, once the old image is freed:
        take every field of `other` and leave it empty. */
    method Adopt(other: VmaImage)
      requires other.Valid() && other != this
      modifies this, other, other.vmaAllocator
      ensures vmaAllocator == old(other.vmaAllocator) && image == old(other.image)
      ensures allocation == old(other.allocation) && mapped == old(other.mapped)
      ensures other.vmaAllocator == old(other.vmaAllocator)
      ensures other.image == 0 && other.allocation == 0 && other.mapped == 0
      ensures Valid() && other.Valid()
      ensures image != 0 ==> vmaAllocator.owner == old(other.vmaAllocator.owner)[allocation := this]
      ensures vmaAllocator != null ==>
                && vmaAllocator.live == old(other.vmaAllocator.live) && vmaAllocator.freed == old(other.vmaAllocator.freed)
                && vmaAllocator.info == old(other.vmaAllocator.info) && vmaAllocator.contents == old(other.vmaAllocator.contents)
                && vmaAllocator.mappedData == old(other.vmaAllocator.mappedData)
                && vmaAllocator.destroyed == old(other.vmaAllocator.destroyed)
      ensures image == 0 && vmaAllocator != null ==> vmaAllocator.owner == old(other.vmaAllocator.owner)
    {
      image := other.image;
      mapped := other.mapped;
      vmaAllocator := other.vmaAllocator;
      allocation := other.allocation;
      if image != 0 {
        vmaAllocator.Transfer(allocation, this);
      }
      other.image, other.allocation, other.mapped := 0, 0, 0;
    }

    /** The destructor: frees the image only when the handle is non-null. */
    method Destroy()
      requires Valid()
      modifies vmaAllocator
      ensures image != 0 ==> vmaAllocator.live == old(vmaAllocator.live) - {allocation}
      ensures image != 0 ==> vmaAllocator.freed == old(vmaAllocator.freed) + {allocation}
      ensures image != 0 ==> vmaAllocator.Valid() && vmaAllocator.owner == old(vmaAllocator.owner) - {allocation}
      ensures image == 0 && vmaAllocator != null ==> unchanged(vmaAllocator)
      ensures vmaAllocator != null ==>
                && vmaAllocator.info == old(vmaAllocator.info)
                && vmaAllocator.contents == old(vmaAllocator.contents)
                && vmaAllocator.mappedData == old(vmaAllocator.mappedData)
                && vmaAllocator.destroyed == old(vmaAllocator.destroyed)
    {
      if image != 0 {
        vmaAllocator.Free(allocation);
      }
    }

    /** `get()` and `image()` */
    method Get() returns (h: nat)
      requires Valid()
      ensures h == image
      ensures h != 0 <==> Owns()
    {
      return image;
    }

    /** `allocation()` */
    method Allocation() returns (a: nat)
      requires Valid()
      ensures a == allocation
      ensures a != 0 <==> Owns()
    {
      return allocation;
    }

    /** `mapped_data()` */
    method MappedData() returns (p: nat)
      requires Valid()
      ensures p == mapped
      ensures image != 0 ==> p == vmaAllocator.mappedData[allocation]
      ensures image == 0 ==> p == 0
    {
      return mapped;
    }
  }

  /** The allocation a wrapper gives up when it is assigned to: its own,
      if its handle is non-null. */
  function Held(handle: nat, allocation: nat): (r: set<nat>)
    ensures handle != 0 <==> r == {allocation}
    ensures handle == 0 <==> r == {}
  {
    if handle != 0 then {allocation} else {}
  }

  /** Releasing what a wrapper held, after a fresh allocation `a` was made
      and handed from the temporary to the wrapper, is the same as
      releasing first and adding `a` afterwards. */
  lemma FreshSurvivesRelease(live: set<nat>, owner: map<nat, object>, a: nat, temporary: object, target: object,
                             gone: set<nat>)
    requires a !in gone
    ensures (live + {a}) - gone == live - gone + {a}
    ensures (owner[a := temporary] - gone)[a := target] == (owner - gone)[a := target]
  {
  }

  /** The move assignment and the destruction of the moved-from temporary
      in `target = VmaBuffer(...)`. */
  method TakeBuffer(target: VmaBuffer, temporary: VmaBuffer, allocator: Allocator)
    requires target.Valid() && temporary.Valid() && temporary != target
    requires temporary.buffer != 0 && temporary.vmaAllocator == allocator
    requires target.vmaAllocator == null || target.vmaAllocator == allocator
    modifies target, temporary, allocator
    ensures allocator.Valid() && target.Valid()
    ensures target.buffer == old(temporary.buffer) && target.allocation == old(temporary.allocation)
    ensures target.mapped == old(temporary.mapped) && target.vmaAllocator == allocator
    ensures var gone := Held(old(target.buffer), old(target.allocation));
            && allocator.live == old(allocator.live) - gone
            && allocator.freed == old(allocator.freed) + gone
            && allocator.owner == (old(allocator.owner) - gone)[target.allocation := target]
    ensures allocator.info == old(allocator.info) && allocator.contents == old(allocator.contents)
    ensures allocator.mappedData == old(allocator.mappedData) && allocator.destroyed == old(allocator.destroyed)
  {
    target.MoveAssign(temporary);
    temporary.Destroy();
  }

  /** `target = VmaBuffer(allocator, size, ...)`: a temporary is created,
      move-assigned into `target`, which frees what `target` held, and then
      destroyed empty. */
  method AssignNewBuffer(target: VmaBuffer, allocator: Allocator, size: nat, usage: bv32, memoryUsage: nat, flags: bv32,
                         res: VkResult, address: nat)
    returns (err: Option<Error>)
    requires allocator.Valid() && !allocator.destroyed && address != 0
    requires target.Valid() && (target.vmaAllocator == null || target.vmaAllocator == allocator)
    modifies target, allocator
    ensures allocator.Valid() && !allocator.destroyed && target.Valid()
    ensures res != Success ==>
              err == Some(VkError(CREATE_FAILED, res.Name())) && unchanged(target, allocator)
    ensures res == Success ==> err.None? && target.buffer != 0 && target.vmaAllocator == allocator
    ensures res == Success ==> target.allocation !in old(allocator.live) + old(allocator.freed)
    ensures res == Success ==>
              var gone := Held(old(target.buffer), old(target.allocation));
              && allocator.live == old(allocator.live) - gone + {target.allocation}
              && allocator.freed == old(allocator.freed) + gone
              && allocator.owner == (old(allocator.owner) - gone)[target.allocation := target]
    ensures res == Success ==> allocator.info == old(allocator.info)[target.allocation := BufferInfo(size, usage, memoryUsage, flags)]
    ensures res == Success ==>
              allocator.contents == old(allocator.contents)[target.allocation := Initial(BufferInfo(size, usage, memoryUsage, flags))]
    ensures res == Success ==> allocator.mappedData == old(allocator.mappedData)[target.allocation := target.mapped]
    ensures res == Success ==> target.mapped == if HasAll(flags, VMA_MAPPED) then address else 0
  {
    ghost var gone := Held(target.buffer, target.allocation);
    var created := VmaBuffer.Create(allocator, size, usage, memoryUsage, flags, res, address);
    if created.Err? {
      return Some(created.error);
    }
    ghost var a := created.value.allocation;
    assert a !in gone;
    TakeBuffer(target, created.value, allocator);
    FreshSurvivesRelease(old(allocator.live), old(allocator.owner), a, created.value, target, gone);
    return None;
  }

  /** The move assignment and the destruction of the moved-from temporary
      in `target = VmaImage(...)`. */
  method TakeImage(target: VmaImage, temporary: VmaImage, allocator: Allocator)
    requires target.Valid() && temporary.Valid() && temporary != target
    requires temporary.image != 0 && temporary.vmaAllocator == allocator
    requires target.vmaAllocator == null || target.vmaAllocator == allocator
    modifies target, temporary, allocator
    ensures allocator.Valid() && target.Valid()
    ensures target.image == old(temporary.image) && target.allocation == old(temporary.allocation)
    ensures target.mapped == old(temporary.mapped) && target.vmaAllocator == allocator
    ensures var gone := Held(old(target.image), old(target.allocation));
            && allocator.live == old(allocator.live) - gone
            && allocator.freed == old(allocator.freed) + gone
            && allocator.owner == (old(allocator.owner) - gone)[target.allocation := target]
    ensures allocator.info == old(allocator.info) && allocator.contents == old(allocator.contents)
    ensures allocator.mappedData == old(allocator.mappedData) && allocator.destroyed == old(allocator.destroyed)
  {
    target.MoveAssign(temporary);
    temporary.Destroy();
  }

  /** `target = VmaImage(allocator, width, height, mipLevels, ...)`. */
  method AssignNewImage(target: VmaImage, allocator: Allocator, width: nat, height: nat, mipLevels: nat, usage: bv32,
                        format: Format, memoryUsage: nat, flags: bv32, res: VkResult, address: nat)
    returns (err: Option<Error>)
    requires allocator.Valid() && !allocator.destroyed && address != 0
    requires target.Valid() && (target.vmaAllocator == null || target.vmaAllocator == allocator)
    modifies target, allocator
    ensures allocator.Valid() && !allocator.destroyed && target.Valid()
    ensures res != Success ==>
              err == Some(VkError(CREATE_FAILED, res.Name())) && unchanged(target, allocator)
    ensures res == Success ==> err.None? && target.image != 0 && target.vmaAllocator == allocator
    ensures res == Success ==> target.allocation !in old(allocator.live) + old(allocator.freed)
    ensures res == Success ==>
              var gone := Held(old(target.image), old(target.allocation));
              && allocator.live == old(allocator.live) - gone + {target.allocation}
              && allocator.freed == old(allocator.freed) + gone
              && allocator.owner == (old(allocator.owner) - gone)[target.allocation := target]
    ensures res == Success ==>
              allocator.info == old(allocator.info)[target.allocation :=
                ImageInfo(width, height, 1, mipLevels, 1, Optimal, usage, format, memoryUsage, flags)]
    ensures res == Success ==> allocator.contents == old(allocator.contents)[target.allocation := []]
    ensures res == Success ==> allocator.mappedData == old(allocator.mappedData)[target.allocation := target.mapped]
  {
    ghost var gone := Held(target.image, target.allocation);
    var created := VmaImage.Create(allocator, width, height, mipLevels, usage, format, memoryUsage, flags, res, address);
    if created.Err? {
      return Some(created.error);
    }
    ghost var a := created.value.allocation;
    assert a !in gone;
    TakeImage(target, created.value, allocator);
    FreshSurvivesRelease(old(allocator.live), old(allocator.owner), a, created.value, target, gone);
    return None;
  }

  /** `target = VmaBuffer{}`: move-assigning an empty temporary frees what
      `target` held and leaves it empty, with no allocator; the temporary,
      left empty, frees nothing when it is destroyed. */
  method ResetBuffer(target: VmaBuffer, allocator: Allocator)
    requires allocator.Valid() && target.Valid()
    requires target.vmaAllocator == null || target.vmaAllocator == allocator
    modifies target, allocator
    ensures allocator.Valid() && target.Valid()
    ensures target.buffer == 0 && target.allocation == 0 && target.mapped == 0 && target.vmaAllocator == null
    ensures var gone := Held(old(target.buffer), old(target.allocation));
            && allocator.live == old(allocator.live) - gone
            && allocator.freed == old(allocator.freed) + gone
            && allocator.owner == old(allocator.owner) - gone
    ensures allocator.info == old(allocator.info) && allocator.contents == old(allocator.contents)
    ensures allocator.mappedData == old(allocator.mappedData) && allocator.destroyed == old(allocator.destroyed)
  {
    var empty := new VmaBuffer.Empty();
    // the move assignment, `empty` being a fresh object and so not `target`
    if target.buffer != 0 {
      allocator.Free(target.allocation);
    }
    target.Adopt(empty);
  }

  /** `target = VmaImage{}`. */
  method ResetImage(target: VmaImage, allocator: Allocator)
    requires allocator.Valid() && target.Valid()
    requires target.vmaAllocator == null || target.vmaAllocator == allocator
    modifies target, allocator
    ensures allocator.Valid() && target.Valid()
    ensures target.image == 0 && target.allocation == 0 && target.mapped == 0 && target.vmaAllocator == null
    ensures var gone := Held(old(target.image), old(target.allocation));
            && allocator.live == old(allocator.live) - gone
            && allocator.freed == old(allocator.freed) + gone
            && allocator.owner == old(allocator.owner) - gone
    ensures allocator.info == old(allocator.info) && allocator.contents == old(allocator.contents)
    ensures allocator.mappedData == old(allocator.mappedData) && allocator.destroyed == old(allocator.destroyed)
  {
    var empty := new VmaImage.Empty();
    // the move assignment, `empty` being a fresh object and so not `target`
    if target.image != 0 {
      allocator.Free(target.allocation);
    }
    target.Adopt(empty);
  }
}
