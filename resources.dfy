/** The memory-owning members of the renderer and the accounting that
    keeps them honest: every live VMA allocation is held by one of a known
    list of `VmaBuffer` and `VmaImage` wrappers. Each operation below is one
    statement of the renderer acting on one wrapper of the list (assigning
    it a new resource, resetting it to `VmaBuffer{}` / `VmaImage{}`, or
    destroying it as it leaves a vector) and keeps the accounting, so that
    once every wrapper is empty no allocation is left for
    `vmaDestroyAllocator` to find. */
module Resources {
  import opened Outcomes
  import opened Vk
  import Vma
  import opened Search

  /** `s[j]` appears in `s` only at `j`. */
  ghost predicate Unaliased<T>(s: seq<T>, j: nat)
    requires j < |s|
  {
    forall k :: 0 <= k < |s| && k != j ==> s[k] != s[j]
  }

  /** Some buffer of `buffers` holds allocation `a`. */
  ghost predicate BufferHolds(buffers: seq<Vma.VmaBuffer>, a: nat)
    reads buffers
  {
    exists k :: 0 <= k < |buffers| && buffers[k].buffer != 0 && buffers[k].allocation == a
  }

  /** Some image of `images` holds allocation `a`. */
  ghost predicate ImageHolds(images: seq<Vma.VmaImage>, a: nat)
    reads images
  {
    exists k :: 0 <= k < |images| && images[k].image != 0 && images[k].allocation == a
  }

  /** Every wrapper of the lists uses `allocator` (or none) and is valid. */
  ghost predicate WrappersValid(allocator: Vma.Allocator, buffers: seq<Vma.VmaBuffer>, images: seq<Vma.VmaImage>)
    reads allocator, buffers, images
  {
    && (forall k :: 0 <= k < |buffers| ==>
          (buffers[k].vmaAllocator == null || buffers[k].vmaAllocator == allocator) && buffers[k].Valid())
    && (forall k :: 0 <= k < |images| ==>
          (images[k].vmaAllocator == null || images[k].vmaAllocator == allocator) && images[k].Valid())
  }

  /** Every live allocation is held by one of the wrappers. */
  ghost predicate Covered(allocator: Vma.Allocator, buffers: seq<Vma.VmaBuffer>, images: seq<Vma.VmaImage>)
    reads allocator, buffers, images
  {
    forall a :: a in allocator.live ==> BufferHolds(buffers, a) || ImageHolds(images, a)
  }

  /** The accounting invariant: each wrapper is valid and uses `allocator`
      (or none), and every live allocation is held by one of them. */
  ghost predicate Accounts(allocator: Vma.Allocator, buffers: seq<Vma.VmaBuffer>, images: seq<Vma.VmaImage>)
    reads allocator, buffers, images
  {
    allocator.Valid() && WrappersValid(allocator, buffers, images) && Covered(allocator, buffers, images)
  }

  /** Once every accounted wrapper is empty, nothing is live. */
  lemma NothingLive(allocator: Vma.Allocator, buffers: seq<Vma.VmaBuffer>, images: seq<Vma.VmaImage>)
    requires Accounts(allocator, buffers, images)
    requires forall k :: 0 <= k < |buffers| ==> buffers[k].buffer == 0
    requires forall k :: 0 <= k < |images| ==> images[k].image == 0
    ensures allocator.live == {}
  {
    assert forall a :: !BufferHolds(buffers, a) && !ImageHolds(images, a);
  }

  // What an operation on one wrapper `x` does to the others. Before the
  // operation, the other wrappers are recorded as valid against a snapshot
  // of the allocator's ledger, and as holding every live allocation that
  // `x` does not hold; both facts read only those wrappers and so survive
  // the operation. Afterwards, the allocator having kept every allocation
  // outside `gone`, the other wrappers are valid again and still hold what
  // they held.

  /** The ledger records an owner, creation parameters and a mapping for
      every live allocation, as it does while the allocator is valid. */
  ghost predicate LedgerShape(ledger: Vma.AllocatorLedger) {
    && ledger.owner.Keys == ledger.live
    && ledger.live <= ledger.info.Keys
    && ledger.live <= ledger.mappedData.Keys
  }

  /** From ledger `before` to ledger `after` every allocation live before
      and outside `gone` is still live and recorded exactly as before. */
  ghost predicate LedgerKeeps(before: Vma.AllocatorLedger, after: Vma.AllocatorLedger, gone: set<nat>)
    requires LedgerShape(before)
  {
    forall a :: a in before.live && a !in gone ==>
      && a in after.live
      && a in after.owner && after.owner[a] == before.owner[a]
      && a in after.info && after.info[a] == before.info[a]
      && a in after.mappedData && after.mappedData[a] == before.mappedData[a]
  }

  /** The fields of a wrapper, `VmaBuffer` or `VmaImage`. */
  datatype Slot = Slot(allocator: Vma.Allocator?, handle: nat, allocation: nat, mapped: nat)

  ghost function BufferSlot(w: Vma.VmaBuffer): Slot
    reads w
  {
    Slot(w.vmaAllocator, w.buffer, w.allocation, w.mapped)
  }

  ghost function ImageSlot(w: Vma.VmaImage): Slot
    reads w
  {
    Slot(w.vmaAllocator, w.image, w.allocation, w.mapped)
  }

  /** The fields of every buffer of the list. */
  ghost function BufferSlots(buffers: seq<Vma.VmaBuffer>): (r: seq<Slot>)
    reads buffers
    ensures |r| == |buffers| && forall k :: 0 <= k < |r| ==> r[k] == BufferSlot(buffers[k])
  {
    seq(|buffers|, k requires 0 <= k < |buffers| reads buffers => BufferSlot(buffers[k]))
  }

  /** The fields of every image of the list. */
  ghost function ImageSlots(images: seq<Vma.VmaImage>): (r: seq<Slot>)
    reads images
    ensures |r| == |images| && forall k :: 0 <= k < |r| ==> r[k] == ImageSlot(images[k])
  {
    seq(|images|, k requires 0 <= k < |images| reads images => ImageSlot(images[k]))
  }

  /** The wrappers other than `x` still have the fields recorded in `bs`
      and `ims`. */
  ghost predicate Untouched(buffers: seq<Vma.VmaBuffer>, images: seq<Vma.VmaImage>, x: object?, bs: seq<Slot>, ims: seq<Slot>)
    reads buffers, images
  {
    && |bs| == |buffers| && |ims| == |images|
    && (forall k :: 0 <= k < |buffers| && buffers[k] != x ==> BufferSlot(buffers[k]) == bs[k])
    && (forall k :: 0 <= k < |images| && images[k] != x ==> ImageSlot(images[k]) == ims[k])
  }

  /** What `Valid()` asks of wrapper `w` with fields `s` against a snapshot
      of the ledger, `buffer` telling a buffer from an image. */
  ghost predicate SlotValidIn(w: object, s: Slot, buffer: bool, allocator: Vma.Allocator, ledger: Vma.AllocatorLedger) {
    && (s.allocator == null || s.allocator == allocator)
    && (s.handle == 0 ==> s.allocation == 0 && s.mapped == 0)
    && (s.handle != 0 ==>
          && s.allocator != null && s.handle == s.allocation && s.allocation in ledger.live
          && s.allocation in ledger.owner && ledger.owner[s.allocation] == w
          && s.allocation in ledger.info && ledger.info[s.allocation].BufferInfo? == buffer
          && s.allocation in ledger.mappedData && s.mapped == ledger.mappedData[s.allocation])
  }

  /** The wrappers other than `x`, with fields `bs` and `ims`, are valid
      against `ledger`. */
  ghost predicate OthersValidIn(allocator: Vma.Allocator, buffers: seq<Vma.VmaBuffer>, images: seq<Vma.VmaImage>,
                                x: object?, bs: seq<Slot>, ims: seq<Slot>, ledger: Vma.AllocatorLedger)
  {
    && |bs| == |buffers| && |ims| == |images|
    && (forall k :: 0 <= k < |buffers| && buffers[k] != x ==> SlotValidIn(buffers[k], bs[k], true, allocator, ledger))
    && (forall k :: 0 <= k < |images| && images[k] != x ==> SlotValidIn(images[k], ims[k], false, allocator, ledger))
  }

  /** The wrappers other than `x`, with fields `bs` and `ims`, hold every
      allocation of `held`. */
  ghost predicate OthersHold(buffers: seq<Vma.VmaBuffer>, images: seq<Vma.VmaImage>, x: object?,
                             bs: seq<Slot>, ims: seq<Slot>, held: set<nat>)
  {
    && |bs| == |buffers| && |ims| == |images|
    && forall a :: a in held ==>
         || (exists k :: 0 <= k < |buffers| && buffers[k] != x && bs[k].handle != 0 && bs[k].allocation == a)
         || (exists k :: 0 <= k < |images| && images[k] != x && ims[k].handle != 0 && ims[k].allocation == a)
  }

  /** Under the accounting, the snapshot before an operation on `x`, which
      holds at most the allocations `mine`. */
  lemma Snapshot(allocator: Vma.Allocator, buffers: seq<Vma.VmaBuffer>, images: seq<Vma.VmaImage>,
                 x: object?, mine: set<nat>)
    requires Accounts(allocator, buffers, images)
    requires forall k :: 0 <= k < |buffers| && buffers[k] == x && buffers[k].buffer != 0 ==> buffers[k].allocation in mine
    requires forall k :: 0 <= k < |images| && images[k] == x && images[k].image != 0 ==> images[k].allocation in mine
    ensures LedgerShape(allocator.Ledger())
    ensures OthersValidIn(allocator, buffers, images, x, BufferSlots(buffers), ImageSlots(images), allocator.Ledger())
    ensures OthersHold(buffers, images, x, BufferSlots(buffers), ImageSlots(images), allocator.live - mine)
  {
    var bs, ims := BufferSlots(buffers), ImageSlots(images);
    forall k | 0 <= k < |buffers| && buffers[k] != x
      ensures SlotValidIn(buffers[k], bs[k], true, allocator, allocator.Ledger())
    {
      assert buffers[k].Valid();
    }
    forall k | 0 <= k < |images| && images[k] != x
      ensures SlotValidIn(images[k], ims[k], false, allocator, allocator.Ledger())
    {
      assert images[k].Valid();
    }
    forall a | a in allocator.live - mine
      ensures || (exists k :: 0 <= k < |buffers| && buffers[k] != x && bs[k].handle != 0 && bs[k].allocation == a)
              || (exists k :: 0 <= k < |images| && images[k] != x && ims[k].handle != 0 && ims[k].allocation == a)
    {
      if BufferHolds(buffers, a) {
        var k :| 0 <= k < |buffers| && buffers[k].buffer != 0 && buffers[k].allocation == a;
        assert buffers[k] != x && bs[k].handle != 0;
      } else {
        var k :| 0 <= k < |images| && images[k].image != 0 && images[k].allocation == a;
        assert images[k] != x && ims[k].handle != 0;
      }
    }
  }

  /** After the operation: the other wrappers, untouched, are valid again
      when the allocator kept every allocation outside `gone`, all of which
      `x` owned. */
  lemma Revalidate(allocator: Vma.Allocator, buffers: seq<Vma.VmaBuffer>, images: seq<Vma.VmaImage>,
                   x: object?, bs: seq<Slot>, ims: seq<Slot>, before: Vma.AllocatorLedger, gone: set<nat>)
    requires Untouched(buffers, images, x, bs, ims) && OthersValidIn(allocator, buffers, images, x, bs, ims, before)
    requires LedgerShape(before) && allocator.Valid() && LedgerKeeps(before, allocator.Ledger(), gone)
    requires forall a :: a in gone && a in before.owner ==> before.owner[a] == x
    ensures forall k :: 0 <= k < |buffers| && buffers[k] != x ==>
              (buffers[k].vmaAllocator == null || buffers[k].vmaAllocator == allocator) && buffers[k].Valid()
    ensures forall k :: 0 <= k < |images| && images[k] != x ==>
              (images[k].vmaAllocator == null || images[k].vmaAllocator == allocator) && images[k].Valid()
  {
    forall k | 0 <= k < |buffers| && buffers[k] != x
      ensures (buffers[k].vmaAllocator == null || buffers[k].vmaAllocator == allocator) && buffers[k].Valid()
    {
      assert SlotValidIn(buffers[k], BufferSlot(buffers[k]), true, allocator, before);
    }
    forall k | 0 <= k < |images| && images[k] != x
      ensures (images[k].vmaAllocator == null || images[k].vmaAllocator == allocator) && images[k].Valid()
    {
      assert SlotValidIn(images[k], ImageSlot(images[k]), false, allocator, before);
    }
  }

  /** After the operation: every live allocation outside `added` is one the
      other wrappers, untouched, held, and so is still held. */
  lemma Recover(allocator: Vma.Allocator, buffers: seq<Vma.VmaBuffer>, images: seq<Vma.VmaImage>,
                x: object?, bs: seq<Slot>, ims: seq<Slot>, held: set<nat>, added: set<nat>)
    requires Untouched(buffers, images, x, bs, ims) && OthersHold(buffers, images, x, bs, ims, held)
    requires allocator.live <= held + added
    ensures forall a :: a in allocator.live && a !in added ==> BufferHolds(buffers, a) || ImageHolds(images, a)
  {
    forall a | a in allocator.live && a !in added
      ensures BufferHolds(buffers, a) || ImageHolds(images, a)
    {
      assert a in held;
    }
  }

  /** After an operation on `x` that leaves the other wrappers untouched:
      the allocator kept every allocation outside `gone`, all of which `x`
      owned, and may hold new ones, `added`, each held by a wrapper of the
      lists; when `x`, in whichever list, is still valid, the accounting
      holds again. */
  lemma Reaccount(allocator: Vma.Allocator, buffers: seq<Vma.VmaBuffer>, images: seq<Vma.VmaImage>,
                  x: object?, bs: seq<Slot>, ims: seq<Slot>, before: Vma.AllocatorLedger, gone: set<nat>,
                  held: set<nat>, added: set<nat>)
    requires Untouched(buffers, images, x, bs, ims) && LedgerShape(before)
    requires OthersValidIn(allocator, buffers, images, x, bs, ims, before)
    requires OthersHold(buffers, images, x, bs, ims, held)
    requires forall a :: a in gone ==> a in before.owner && before.owner[a] == x
    requires allocator.Valid() && LedgerKeeps(before, allocator.Ledger(), gone)
    requires allocator.live <= held + added
    requires forall k :: 0 <= k < |buffers| && buffers[k] == x ==>
               (buffers[k].vmaAllocator == null || buffers[k].vmaAllocator == allocator) && buffers[k].Valid()
    requires forall k :: 0 <= k < |images| && images[k] == x ==>
               (images[k].vmaAllocator == null || images[k].vmaAllocator == allocator) && images[k].Valid()
    requires forall a :: a in added ==> BufferHolds(buffers, a) || ImageHolds(images, a)
    ensures Accounts(allocator, buffers, images)
  {
    Revalidate(allocator, buffers, images, x, bs, ims, before, gone);
    Recover(allocator, buffers, images, x, bs, ims, held, added);
  }

  /** After `buffers[j]` is destroyed: the accounting holds for the list
      without it. */
  lemma ReaccountWithoutBuffer(allocator: Vma.Allocator, buffers: seq<Vma.VmaBuffer>, images: seq<Vma.VmaImage>, j: nat,
                               bs: seq<Slot>, ims: seq<Slot>, before: Vma.AllocatorLedger, gone: set<nat>)
    requires j < |buffers| && Unaliased(buffers, j)
    requires Untouched(buffers, images, buffers[j], bs, ims) && LedgerShape(before)
    requires OthersValidIn(allocator, buffers, images, buffers[j], bs, ims, before)
    requires OthersHold(buffers, images, buffers[j], bs, ims, before.live - gone)
    requires forall a :: a in gone ==> a in before.owner && before.owner[a] == buffers[j]
    requires allocator.Valid() && LedgerKeeps(before, allocator.Ledger(), gone)
    requires allocator.live <= before.live - gone
    requires buffers[j].buffer != 0 ==> buffers[j].allocation in gone
    ensures Accounts(allocator, buffers[..j] + buffers[j + 1..], images)
  {
    Revalidate(allocator, buffers, images, buffers[j], bs, ims, before, gone);
    Recover(allocator, buffers, images, buffers[j], bs, ims, before.live - gone, {});
    AccountsWithoutBuffer(allocator, buffers, images, j);
  }

  /** After `images[j]` is destroyed: the accounting holds for the list
      without it. */
  lemma ReaccountWithoutImage(allocator: Vma.Allocator, buffers: seq<Vma.VmaBuffer>, images: seq<Vma.VmaImage>, j: nat,
                              bs: seq<Slot>, ims: seq<Slot>, before: Vma.AllocatorLedger, gone: set<nat>)
    requires j < |images| && Unaliased(images, j)
    requires Untouched(buffers, images, images[j], bs, ims) && LedgerShape(before)
    requires OthersValidIn(allocator, buffers, images, images[j], bs, ims, before)
    requires OthersHold(buffers, images, images[j], bs, ims, before.live - gone)
    requires forall a :: a in gone ==> a in before.owner && before.owner[a] == images[j]
    requires allocator.Valid() && LedgerKeeps(before, allocator.Ledger(), gone)
    requires allocator.live <= before.live - gone
    requires images[j].image != 0 ==> images[j].allocation in gone
    ensures Accounts(allocator, buffers, images[..j] + images[j + 1..])
  {
    Revalidate(allocator, buffers, images, images[j], bs, ims, before, gone);
    Recover(allocator, buffers, images, images[j], bs, ims, before.live - gone, {});
    AccountsWithoutImage(allocator, buffers, images, j);
  }

  /** After a new buffer `b` was created, every other wrapper untouched:
      the accounting holds with `b` at the end of the buffers. */
  lemma ReaccountAppend(allocator: Vma.Allocator, buffers: seq<Vma.VmaBuffer>, images: seq<Vma.VmaImage>,
                        b: Vma.VmaBuffer, bs: seq<Slot>, ims: seq<Slot>, before: Vma.AllocatorLedger, held: set<nat>)
    requires Untouched(buffers, images, null, bs, ims) && LedgerShape(before)
    requires OthersValidIn(allocator, buffers, images, null, bs, ims, before)
    requires OthersHold(buffers, images, null, bs, ims, held)
    requires allocator.Valid() && LedgerKeeps(before, allocator.Ledger(), {})
    requires allocator.live <= held + {b.allocation}
    requires b.Valid() && b.vmaAllocator == allocator && b.buffer != 0
    ensures Accounts(allocator, buffers + [b], images)
  {
    Revalidate(allocator, buffers, images, null, bs, ims, before, {});
    Recover(allocator, buffers, images, null, bs, ims, held, {b.allocation});
    AccountsAppend(allocator, buffers, images, b);
  }

  /** After `buffers[j]` took a fresh allocation and released `gone`, the
      allocations it held: the accounting holds again. */
  lemma ReaccountBufferReplaced(allocator: Vma.Allocator, buffers: seq<Vma.VmaBuffer>, images: seq<Vma.VmaImage>, j: nat,
                              bs: seq<Slot>, ims: seq<Slot>, before: Vma.AllocatorLedger, gone: set<nat>,
                              request: Vma.ResourceInfo)
    requires j < |buffers| && Untouched(buffers, images, buffers[j], bs, ims) && LedgerShape(before)
    requires OthersValidIn(allocator, buffers, images, buffers[j], bs, ims, before)
    requires OthersHold(buffers, images, buffers[j], bs, ims, before.live - gone)
    requires forall a :: a in gone ==> a in before.owner && before.owner[a] == buffers[j]
    requires allocator.Valid() && buffers[j].Valid() && buffers[j].vmaAllocator == allocator && buffers[j].buffer != 0
    requires buffers[j].allocation !in before.live
    requires allocator.live == before.live - gone + {buffers[j].allocation}
    requires allocator.owner == (before.owner - gone)[buffers[j].allocation := buffers[j]]
    requires allocator.info == before.info[buffers[j].allocation := request]
    requires allocator.mappedData == before.mappedData[buffers[j].allocation := buffers[j].mapped]
    ensures Accounts(allocator, buffers, images)
  {
    var target := buffers[j];
    AssignKeeps(before, allocator.Ledger(), gone, target.allocation, target, request, target.mapped);
    assert BufferHolds(buffers, target.allocation);
    Reaccount(allocator, buffers, images, target, bs, ims, before, gone, before.live - gone, {target.allocation});
  }

  /** After `images[j]` took a fresh allocation and released `gone`, the
      allocations it held: the accounting holds again. */
  lemma ReaccountImageReplaced(allocator: Vma.Allocator, buffers: seq<Vma.VmaBuffer>, images: seq<Vma.VmaImage>, j: nat,
                              bs: seq<Slot>, ims: seq<Slot>, before: Vma.AllocatorLedger, gone: set<nat>,
                              request: Vma.ResourceInfo)
    requires j < |images| && Untouched(buffers, images, images[j], bs, ims) && LedgerShape(before)
    requires OthersValidIn(allocator, buffers, images, images[j], bs, ims, before)
    requires OthersHold(buffers, images, images[j], bs, ims, before.live - gone)
    requires forall a :: a in gone ==> a in before.owner && before.owner[a] == images[j]
    requires allocator.Valid() && images[j].Valid() && images[j].vmaAllocator == allocator && images[j].image != 0
    requires images[j].allocation !in before.live
    requires allocator.live == before.live - gone + {images[j].allocation}
    requires allocator.owner == (before.owner - gone)[images[j].allocation := images[j]]
    requires allocator.info == before.info[images[j].allocation := request]
    requires allocator.mappedData == before.mappedData[images[j].allocation := images[j].mapped]
    ensures Accounts(allocator, buffers, images)
  {
    var target := images[j];
    AssignKeeps(before, allocator.Ledger(), gone, target.allocation, target, request, target.mapped);
    assert ImageHolds(images, target.allocation);
    Reaccount(allocator, buffers, images, target, bs, ims, before, gone, before.live - gone, {target.allocation});
  }

  /** After an operation that changed no wrapper of the lists and nothing
      the allocator records but the bytes it holds: the accounting holds
      again. */
  lemma Unaffected(allocator: Vma.Allocator, buffers: seq<Vma.VmaBuffer>, images: seq<Vma.VmaImage>,
                   bs: seq<Slot>, ims: seq<Slot>, before: Vma.AllocatorLedger)
    requires Untouched(buffers, images, null, bs, ims) && LedgerShape(before)
    requires OthersValidIn(allocator, buffers, images, null, bs, ims, before)
    requires OthersHold(buffers, images, null, bs, ims, before.live - {})
    requires allocator.Valid() && allocator.Ledger() == before
    ensures Accounts(allocator, buffers, images)
  {
    ReleaseKeeps(before, allocator.Ledger(), {});
    Reaccount(allocator, buffers, images, null, bs, ims, before, {}, before.live - {}, {});
  }

  /** Releasing the allocations `gone` keeps every other one. */
  lemma ReleaseKeeps(before: Vma.AllocatorLedger, after: Vma.AllocatorLedger, gone: set<nat>)
    requires LedgerShape(before)
    requires after.live == before.live - gone && after.owner == before.owner - gone
    requires after.info == before.info && after.mappedData == before.mappedData
    ensures LedgerKeeps(before, after, gone)
  {
  }

  /** Recording a fresh allocation `n` keeps every other one. */
  lemma CreateKeeps(before: Vma.AllocatorLedger, after: Vma.AllocatorLedger, n: nat, w: object,
                    request: Vma.ResourceInfo, mapped: nat)
    requires LedgerShape(before) && n !in before.live
    requires after.live == before.live + {n} && after.owner == before.owner[n := w]
    requires after.info == before.info[n := request] && after.mappedData == before.mappedData[n := mapped]
    ensures LedgerKeeps(before, after, {})
  {
  }

  /** Releasing `gone` and recording a fresh allocation `n` keeps every
      other one. */
  lemma AssignKeeps(before: Vma.AllocatorLedger, after: Vma.AllocatorLedger, gone: set<nat>, n: nat, w: object,
                    request: Vma.ResourceInfo, mapped: nat)
    requires LedgerShape(before) && n !in before.live
    requires after.live == before.live - gone + {n} && after.owner == (before.owner - gone)[n := w]
    requires after.info == before.info[n := request] && after.mappedData == before.mappedData[n := mapped]
    ensures LedgerKeeps(before, after, gone)
  {
  }

  /** `buffers[j] = VmaBuffer{}` keeps the accounting: the allocation it held
      leaves the live set, and every other allocation is still held by the
      same wrapper as before. */
  method ReleaseBufferAt(allocator: Vma.Allocator, buffers: seq<Vma.VmaBuffer>, images: seq<Vma.VmaImage>, j: nat)
    requires Accounts(allocator, buffers, images) && j < |buffers|
    modifies buffers[j], allocator
    ensures Accounts(allocator, buffers, images)
    ensures buffers[j].buffer == 0
    ensures var gone := Vma.Held(old(buffers[j].buffer), old(buffers[j].allocation));
            && gone <= old(allocator.live)
            && allocator.live == old(allocator.live) - gone && allocator.freed == old(allocator.freed) + gone
    ensures allocator.destroyed == old(allocator.destroyed)
  {
    var target := buffers[j];
    ghost var before, bs, ims := allocator.Ledger(), BufferSlots(buffers), ImageSlots(images);
    ghost var gone := Vma.Held(target.buffer, target.allocation);
    Snapshot(allocator, buffers, images, target, gone);
    Vma.ResetBuffer(target, allocator);
    ReleaseKeeps(before, allocator.Ledger(), gone);
    Reaccount(allocator, buffers, images, target, bs, ims, before, gone, before.live - gone, {});
  }

  /** `images[j] = VmaImage{}`, the same for an image. */
  method ReleaseImageAt(allocator: Vma.Allocator, buffers: seq<Vma.VmaBuffer>, images: seq<Vma.VmaImage>, j: nat)
    requires Accounts(allocator, buffers, images) && j < |images|
    modifies images[j], allocator
    ensures Accounts(allocator, buffers, images)
    ensures images[j].image == 0
    ensures var gone := Vma.Held(old(images[j].image), old(images[j].allocation));
            && gone <= old(allocator.live)
            && allocator.live == old(allocator.live) - gone && allocator.freed == old(allocator.freed) + gone
    ensures allocator.destroyed == old(allocator.destroyed)
  {
    var target := images[j];
    ghost var before, bs, ims := allocator.Ledger(), BufferSlots(buffers), ImageSlots(images);
    ghost var gone := Vma.Held(target.image, target.allocation);
    Snapshot(allocator, buffers, images, target, gone);
    Vma.ResetImage(target, allocator);
    ReleaseKeeps(before, allocator.Ledger(), gone);
    Reaccount(allocator, buffers, images, target, bs, ims, before, gone, before.live - gone, {});
  }

  /** The destructor of `buffers[j]`, which then leaves the list: its
      allocation is freed and the others stay accounted for. */
  method DestroyBufferAt(allocator: Vma.Allocator, buffers: seq<Vma.VmaBuffer>, images: seq<Vma.VmaImage>, j: nat)
    requires Accounts(allocator, buffers, images) && j < |buffers| && Unaliased(buffers, j)
    modifies allocator
    ensures Accounts(allocator, buffers[..j] + buffers[j + 1..], images)
    ensures var gone := Vma.Held(buffers[j].buffer, buffers[j].allocation);
            && gone <= old(allocator.live)
            && allocator.live == old(allocator.live) - gone && allocator.freed == old(allocator.freed) + gone
    ensures allocator.destroyed == old(allocator.destroyed)
    ensures allocator.info == old(allocator.info) && allocator.contents == old(allocator.contents)
  {
    var target := buffers[j];
    ghost var before, bs, ims := allocator.Ledger(), BufferSlots(buffers), ImageSlots(images);
    ghost var gone := Vma.Held(target.buffer, target.allocation);
    Snapshot(allocator, buffers, images, target, gone);
    target.Destroy();
    ReleaseKeeps(before, allocator.Ledger(), gone);
    ReaccountWithoutBuffer(allocator, buffers, images, j, bs, ims, before, gone);
  }

  /** The destructor of `last`, the buffer appended after `buffers`. */
  method DestroyLast(allocator: Vma.Allocator, buffers: seq<Vma.VmaBuffer>, images: seq<Vma.VmaImage>,
                     last: Vma.VmaBuffer)
    requires Accounts(allocator, buffers + [last], images) && last !in buffers && last.buffer != 0
    modifies allocator
    ensures Accounts(allocator, buffers, images)
    ensures last.allocation in old(allocator.live)
    ensures allocator.live == old(allocator.live) - {last.allocation}
    ensures allocator.freed == old(allocator.freed) + {last.allocation}
    ensures allocator.destroyed == old(allocator.destroyed)
    ensures allocator.info == old(allocator.info) && allocator.contents == old(allocator.contents)
  {
    var all := buffers + [last];
    assert Unaliased(all, |buffers|);
    DestroyBufferAt(allocator, all, images, |buffers|);
    assert all[..|buffers|] + all[|buffers| + 1..] == buffers;
  }

  /** The destructor of `images[j]`, which then leaves the list. */
  method DestroyImageAt(allocator: Vma.Allocator, buffers: seq<Vma.VmaBuffer>, images: seq<Vma.VmaImage>, j: nat)
    requires Accounts(allocator, buffers, images) && j < |images| && Unaliased(images, j)
    modifies allocator
    ensures Accounts(allocator, buffers, images[..j] + images[j + 1..])
    ensures var gone := Vma.Held(images[j].image, images[j].allocation);
            && gone <= old(allocator.live)
            && allocator.live == old(allocator.live) - gone && allocator.freed == old(allocator.freed) + gone
    ensures allocator.destroyed == old(allocator.destroyed)
  {
    var target := images[j];
    ghost var before, bs, ims := allocator.Ledger(), BufferSlots(buffers), ImageSlots(images);
    ghost var gone := Vma.Held(target.image, target.allocation);
    Snapshot(allocator, buffers, images, target, gone);
    target.Destroy();
    ReleaseKeeps(before, allocator.Ledger(), gone);
    ReaccountWithoutImage(allocator, buffers, images, j, bs, ims, before, gone);
  }

  /** A host write through the mapping of a live allocation (`vmaMapMemory`,
      `memcpy`, `vmaUnmapMemory`): only the bytes change. */
  method StoreAt(allocator: Vma.Allocator, buffers: seq<Vma.VmaBuffer>, images: seq<Vma.VmaImage>,
                 h: nat, bytes: seq<bv8>)
    requires Accounts(allocator, buffers, images) && h in allocator.live
    modifies allocator
    ensures Accounts(allocator, buffers, images) && allocator.Ledger() == old(allocator.Ledger())
    ensures allocator.contents == old(allocator.contents)[h := bytes]
  {
    ghost var before, bs, ims := allocator.Ledger(), BufferSlots(buffers), ImageSlots(images);
    Snapshot(allocator, buffers, images, null, {});
    allocator.Store(h, bytes);
    Unaffected(allocator, buffers, images, bs, ims, before);
  }

  /** The allocator has freed exactly the allocations that were live at
      `live0` and are live no longer. */
  ghost predicate ReleasedSince(allocator: Vma.Allocator, live0: set<nat>, freed0: set<nat>)
    reads allocator
  {
    allocator.live <= live0 && allocator.freed == freed0 + (live0 - allocator.live)
  }

  /** Freeing the allocations `gone`, all of them live, is a release. */
  lemma ReleasedOne(live0: set<nat>, freed0: set<nat>, gone: set<nat>, live1: set<nat>, freed1: set<nat>)
    requires gone <= live0 && live1 == live0 - gone && freed1 == freed0 + gone
    ensures live1 <= live0 && freed1 == freed0 + (live0 - live1)
  {
    assert live0 - live1 == gone;
  }

  /** Two releases in a row are one release. */
  lemma ReleasedTwice(live0: set<nat>, freed0: set<nat>, live1: set<nat>, freed1: set<nat>, live2: set<nat>, freed2: set<nat>)
    requires live1 <= live0 && freed1 == freed0 + (live0 - live1)
    requires live2 <= live1 && freed2 == freed1 + (live1 - live2)
    ensures live2 <= live0 && freed2 == freed0 + (live0 - live2)
  {
  }

  /** A release after which nothing is live has freed everything. */
  lemma ReleasedEverything(live0: set<nat>, freed0: set<nat>, live: set<nat>, freed: set<nat>)
    requires live <= live0 && freed == freed0 + (live0 - live) && live == {}
    ensures freed == freed0 + live0
  {
    assert live0 - live == live0;
  }

  /** `buffers[lo]`, ..., `buffers[hi - 1]` are each reset to `VmaBuffer{}`,
      in that order. */
  method ReleaseBuffers(allocator: Vma.Allocator, buffers: seq<Vma.VmaBuffer>, images: seq<Vma.VmaImage>, lo: nat, hi: nat)
    requires Accounts(allocator, buffers, images) && lo <= hi <= |buffers| && Distinct(buffers)
    modifies buffers[lo..hi], allocator
    decreases hi - lo
    ensures Accounts(allocator, buffers, images)
    ensures forall k :: lo <= k < hi ==> buffers[k].buffer == 0
    ensures ReleasedSince(allocator, old(allocator.live), old(allocator.freed))
    ensures allocator.destroyed == old(allocator.destroyed)
  {
    if lo < hi {
      ghost var live0, freed0 := allocator.live, allocator.freed;
      ghost var gone := Vma.Held(buffers[lo].buffer, buffers[lo].allocation);
      ReleaseBufferAt(allocator, buffers, images, lo);
      ghost var live1, freed1 := allocator.live, allocator.freed;
      ReleasedOne(live0, freed0, gone, live1, freed1);
      assert buffers[lo] !in buffers[lo + 1..hi] by {
        assert forall k :: lo < k < hi ==> buffers[k] != buffers[lo];
      }
      ReleaseBuffers(allocator, buffers, images, lo + 1, hi);
      ReleasedTwice(live0, freed0, live1, freed1, allocator.live, allocator.freed);
    }
  }

  /** `images[lo]`, ..., `images[hi - 1]` are each reset to `VmaImage{}`,
      in that order. */
  method ReleaseImages(allocator: Vma.Allocator, buffers: seq<Vma.VmaBuffer>, images: seq<Vma.VmaImage>, lo: nat, hi: nat)
    requires Accounts(allocator, buffers, images) && lo <= hi <= |images| && Distinct(images)
    modifies images[lo..hi], allocator
    decreases hi - lo
    ensures Accounts(allocator, buffers, images)
    ensures forall k :: lo <= k < hi ==> images[k].image == 0
    ensures ReleasedSince(allocator, old(allocator.live), old(allocator.freed))
    ensures allocator.destroyed == old(allocator.destroyed)
  {
    if lo < hi {
      ghost var live0, freed0 := allocator.live, allocator.freed;
      ghost var gone := Vma.Held(images[lo].image, images[lo].allocation);
      ReleaseImageAt(allocator, buffers, images, lo);
      ghost var live1, freed1 := allocator.live, allocator.freed;
      ReleasedOne(live0, freed0, gone, live1, freed1);
      assert images[lo] !in images[lo + 1..hi] by {
        assert forall k :: lo < k < hi ==> images[k] != images[lo];
      }
      ReleaseImages(allocator, buffers, images, lo + 1, hi);
      ReleasedTwice(live0, freed0, live1, freed1, allocator.live, allocator.freed);
    }
  }

  /** Wrappers at the end of the list that hold nothing can leave the
      accounted buffers. */
  lemma AccountsPrefix(allocator: Vma.Allocator, buffers: seq<Vma.VmaBuffer>, images: seq<Vma.VmaImage>, m: nat)
    requires Accounts(allocator, buffers, images) && m <= |buffers|
    requires forall k :: m <= k < |buffers| ==> buffers[k].buffer == 0
    ensures Accounts(allocator, buffers[..m], images)
  {
    forall a | a in allocator.live && BufferHolds(buffers, a)
      ensures BufferHolds(buffers[..m], a)
    {
      var k :| 0 <= k < |buffers| && buffers[k].buffer != 0 && buffers[k].allocation == a;
      assert buffers[..m][k] == buffers[k];
    }
  }

  /** Removing `s[j]` from a list without duplicates leaves one without
      duplicates, and `s[j]` appeared in it once. */
  lemma DistinctWithout<T>(s: seq<T>, j: nat)
    requires Distinct(s) && j < |s|
    ensures Unaliased(s, j)
    ensures Distinct(s[..j] + s[j + 1..])
  {
    var rest := s[..j] + s[j + 1..];
    assert forall k :: 0 <= k < |rest| ==> rest[k] == s[if k < j then k else k + 1];
  }

  /** A vector of images from `images[lo]` on is cleared: each is destroyed
      in turn, front to back, and leaves the accounted images. */
  method DestroyImagesFrom(allocator: Vma.Allocator, buffers: seq<Vma.VmaBuffer>, images: seq<Vma.VmaImage>, lo: nat)
    requires Accounts(allocator, buffers, images) && lo <= |images| && Distinct(images)
    modifies allocator
    ensures Accounts(allocator, buffers, images[..lo])
    ensures ReleasedSince(allocator, old(allocator.live), old(allocator.freed))
    ensures allocator.destroyed == old(allocator.destroyed)
  {
    var rest := images;
    for i := lo to |images|
      invariant rest == images[..lo] + images[i..] && Distinct(rest)
      invariant Accounts(allocator, buffers, rest)
      invariant ReleasedSince(allocator, old(allocator.live), old(allocator.freed))
      invariant allocator.destroyed == old(allocator.destroyed)
    {
      DistinctWithout(rest, lo);
      DestroyImageAt(allocator, buffers, rest, lo);
      assert rest[..lo] + rest[lo + 1..] == images[..lo] + images[i + 1..];
      rest := rest[..lo] + rest[lo + 1..];
    }
    assert rest == images[..lo];
  }

  /** A buffer whose allocation is no longer live can leave the accounted
      buffers. */
  lemma AccountsWithoutBuffer(allocator: Vma.Allocator, buffers: seq<Vma.VmaBuffer>, images: seq<Vma.VmaImage>, j: nat)
    requires j < |buffers| && allocator.Valid()
    requires forall k :: 0 <= k < |buffers| && k != j ==>
               (buffers[k].vmaAllocator == null || buffers[k].vmaAllocator == allocator) && buffers[k].Valid()
    requires forall k :: 0 <= k < |images| ==>
               (images[k].vmaAllocator == null || images[k].vmaAllocator == allocator) && images[k].Valid()
    requires forall a :: a in allocator.live ==> BufferHolds(buffers, a) || ImageHolds(images, a)
    requires buffers[j].buffer != 0 ==> buffers[j].allocation !in allocator.live
    ensures Accounts(allocator, buffers[..j] + buffers[j + 1..], images)
  {
    var rest := buffers[..j] + buffers[j + 1..];
    assert forall k :: 0 <= k < |rest| ==> rest[k] == buffers[if k < j then k else k + 1];
    forall b | b in allocator.live && BufferHolds(buffers, b)
      ensures BufferHolds(rest, b)
    {
      var k :| 0 <= k < |buffers| && buffers[k].buffer != 0 && buffers[k].allocation == b;
      assert rest[if k < j then k else k - 1] == buffers[k];
    }
  }

  /** An image whose allocation is no longer live can leave the accounted
      images. */
  lemma AccountsWithoutImage(allocator: Vma.Allocator, buffers: seq<Vma.VmaBuffer>, images: seq<Vma.VmaImage>, j: nat)
    requires j < |images| && allocator.Valid()
    requires forall k :: 0 <= k < |buffers| ==>
               (buffers[k].vmaAllocator == null || buffers[k].vmaAllocator == allocator) && buffers[k].Valid()
    requires forall k :: 0 <= k < |images| && k != j ==>
               (images[k].vmaAllocator == null || images[k].vmaAllocator == allocator) && images[k].Valid()
    requires forall a :: a in allocator.live ==> BufferHolds(buffers, a) || ImageHolds(images, a)
    requires images[j].image != 0 ==> images[j].allocation !in allocator.live
    ensures Accounts(allocator, buffers, images[..j] + images[j + 1..])
  {
    var rest := images[..j] + images[j + 1..];
    assert forall k :: 0 <= k < |rest| ==> rest[k] == images[if k < j then k else k + 1];
    forall b | b in allocator.live && ImageHolds(images, b)
      ensures ImageHolds(rest, b)
    {
      var k :| 0 <= k < |images| && images[k].image != 0 && images[k].allocation == b;
      assert rest[if k < j then k else k - 1] == images[k];
    }
  }

  /** `VmaBuffer(allocator, size, ...)` made while the accounting holds:
      the new wrapper joins the end of the accounted buffers. */
  method CreateBuffer(allocator: Vma.Allocator, buffers: seq<Vma.VmaBuffer>, images: seq<Vma.VmaImage>,
                      size: nat, usage: bv32, memoryUsage: nat, flags: bv32, res: VkResult, address: nat)
    returns (r: Result<Vma.VmaBuffer>)
    requires Accounts(allocator, buffers, images) && !allocator.destroyed && address != 0
    modifies allocator
    ensures !allocator.destroyed
    ensures res == Success <==> r.Ok?
    ensures r.Err? ==> && r.error == VkError(Vma.CREATE_FAILED, res.Name())
                       && Accounts(allocator, buffers, images) && unchanged(allocator)
    ensures r.Ok? ==> && fresh(r.value) && r.value.buffer != 0 && r.value.vmaAllocator == allocator
                      && Accounts(allocator, buffers + [r.value], images)
    ensures r.Ok? ==> && r.value.allocation !in old(allocator.live) + old(allocator.freed)
                      && allocator.live == old(allocator.live) + {r.value.allocation}
                      && allocator.freed == old(allocator.freed)
    ensures r.Ok? ==> allocator.contents == old(allocator.contents)[r.value.allocation := Vma.Initial(Vma.BufferInfo(size, usage, memoryUsage, flags))]
    ensures r.Ok? ==> allocator.info == old(allocator.info)[r.value.allocation := Vma.BufferInfo(size, usage, memoryUsage, flags)]
    ensures r.Ok? ==> r.value.mapped == if HasAll(flags, VMA_MAPPED) then address else 0
  {
    ghost var before, bs, ims := allocator.Ledger(), BufferSlots(buffers), ImageSlots(images);
    Snapshot(allocator, buffers, images, null, {});
    r := Vma.VmaBuffer.Create(allocator, size, usage, memoryUsage, flags, res, address);
    if r.Err? {
      return;
    }
    var b := r.value;
    CreateKeeps(before, allocator.Ledger(), b.allocation, b, Vma.BufferInfo(size, usage, memoryUsage, flags), b.mapped);
    ReaccountAppend(allocator, buffers, images, b, bs, ims, before, before.live - {});
  }

  /** A non-empty buffer holding the one allocation nobody else holds joins
      the accounted buffers. */
  lemma AccountsAppend(allocator: Vma.Allocator, buffers: seq<Vma.VmaBuffer>, images: seq<Vma.VmaImage>, b: Vma.VmaBuffer)
    requires allocator.Valid()
    requires forall k :: 0 <= k < |buffers| ==>
               (buffers[k].vmaAllocator == null || buffers[k].vmaAllocator == allocator) && buffers[k].Valid()
    requires forall k :: 0 <= k < |images| ==>
               (images[k].vmaAllocator == null || images[k].vmaAllocator == allocator) && images[k].Valid()
    requires b.Valid() && b.vmaAllocator == allocator && b.buffer != 0
    requires forall a :: a in allocator.live && a != b.allocation ==> BufferHolds(buffers, a) || ImageHolds(images, a)
    ensures Accounts(allocator, buffers + [b], images)
  {
    var all := buffers + [b];
    assert forall k :: 0 <= k < |all| ==> all[k] == if k < |buffers| then buffers[k] else b;
    forall a | a in allocator.live
      ensures BufferHolds(all, a) || ImageHolds(images, a)
    {
      if a == b.allocation {
        assert all[|buffers|] == b;
      } else if BufferHolds(buffers, a) {
        var k :| 0 <= k < |buffers| && buffers[k].buffer != 0 && buffers[k].allocation == a;
        assert all[k] == buffers[k];
      }
    }
  }

  /** `buffers[j] = VmaBuffer(allocator, size, ...)`: on success the buffer
      takes a fresh allocation and frees the one it held; either way every
      live allocation stays accounted for. */
  method ReplaceBufferAt(allocator: Vma.Allocator, buffers: seq<Vma.VmaBuffer>, images: seq<Vma.VmaImage>, j: nat,
                         size: nat, usage: bv32, memoryUsage: nat, flags: bv32, res: VkResult, address: nat)
    returns (err: Option<Error>)
    requires Accounts(allocator, buffers, images) && j < |buffers| && !allocator.destroyed && address != 0
    modifies buffers[j], allocator
    ensures Accounts(allocator, buffers, images) && !allocator.destroyed
    ensures res != Success ==>
              && err == Some(VkError(Vma.CREATE_FAILED, res.Name()))
              && unchanged(buffers[j], allocator)
    ensures res == Success ==>
              && err.None? && buffers[j].buffer != 0
              && buffers[j].allocation !in old(allocator.live) + old(allocator.freed)
    ensures res == Success ==>
              var gone := Vma.Held(old(buffers[j].buffer), old(buffers[j].allocation));
              && gone <= old(allocator.live)
              && allocator.live == old(allocator.live) - gone + {buffers[j].allocation}
              && allocator.freed == old(allocator.freed) + gone
    ensures res == Success ==>
              && allocator.info[buffers[j].allocation] == Vma.BufferInfo(size, usage, memoryUsage, flags)
              && allocator.contents == old(allocator.contents)[buffers[j].allocation :=
                   Vma.Initial(Vma.BufferInfo(size, usage, memoryUsage, flags))]
              && buffers[j].mapped == allocator.mappedData[buffers[j].allocation]
  {
    var target := buffers[j];
    ghost var before, bs, ims := allocator.Ledger(), BufferSlots(buffers), ImageSlots(images);
    ghost var gone := Vma.Held(target.buffer, target.allocation);
    Snapshot(allocator, buffers, images, target, gone);
    err := Vma.AssignNewBuffer(target, allocator, size, usage, memoryUsage, flags, res, address);
    if err.Some? {
      return;
    }
    ReaccountBufferReplaced(allocator, buffers, images, j, bs, ims, before, gone,
                          Vma.BufferInfo(size, usage, memoryUsage, flags));
  }

  /** `images[j] = VmaImage(allocator, ...)`, the same for an image. */
  method ReplaceImageAt(allocator: Vma.Allocator, buffers: seq<Vma.VmaBuffer>, images: seq<Vma.VmaImage>, j: nat,
                        width: nat, height: nat, mipLevels: nat, usage: bv32, format: Format,
                        memoryUsage: nat, flags: bv32, res: VkResult, address: nat)
    returns (err: Option<Error>)
    requires Accounts(allocator, buffers, images) && j < |images| && !allocator.destroyed && address != 0
    modifies images[j], allocator
    ensures Accounts(allocator, buffers, images) && !allocator.destroyed
    ensures res != Success ==>
              && err == Some(VkError(Vma.CREATE_FAILED, res.Name()))
              && unchanged(images[j], allocator)
    ensures res == Success ==>
              && err.None? && images[j].image != 0
              && images[j].allocation !in old(allocator.live) + old(allocator.freed)
    ensures res == Success ==>
              var gone := Vma.Held(old(images[j].image), old(images[j].allocation));
              && gone <= old(allocator.live)
              && allocator.live == old(allocator.live) - gone + {images[j].allocation}
              && allocator.freed == old(allocator.freed) + gone
    ensures res == Success ==>
              && allocator.info[images[j].allocation]
                   == Vma.ImageInfo(width, height, 1, mipLevels, 1, Optimal, usage, format, memoryUsage, flags)
              && allocator.contents == old(allocator.contents)[images[j].allocation := []]
  {
    var target := images[j];
    ghost var before, bs, ims := allocator.Ledger(), BufferSlots(buffers), ImageSlots(images);
    ghost var gone := Vma.Held(target.image, target.allocation);
    Snapshot(allocator, buffers, images, target, gone);
    err := Vma.AssignNewImage(target, allocator, width, height, mipLevels, usage, format, memoryUsage, flags, res, address);
    if err.Some? {
      return;
    }
    ReaccountImageReplaced(allocator, buffers, images, j, bs, ims, before, gone,
                          Vma.ImageInfo(width, height, 1, mipLevels, 1, Optimal, usage, format, memoryUsage, flags));
  }
}
