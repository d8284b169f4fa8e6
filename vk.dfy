/** The slice of the Vulkan API vocabulary the renderer relies on: result
    codes, formats, layouts, access and stage flags, and 32-bit unsigned
    arithmetic as C++ performs it on `uint32_t`. */
module Vk {

  const UINT32_MAX: nat := 0xFFFF_FFFF
  const TWO_POW_32: nat := 0x1_0000_0000

  /** A `uint32_t` value. */
  type u32 = x: nat | x <= 0xFFFF_FFFF

  /** `uint32_t` arithmetic wraps modulo 2^32. */
  function U32(x: int): (r: nat)
    ensures r <= UINT32_MAX
    ensures 0 <= x <= UINT32_MAX ==> r == x
  {
    x % TWO_POW_32
  }

  /** Converting a `uint32_t` to a 32-bit `int` (two's complement since C++20). */
  function ToInt32(x: nat): (r: int)
    requires x <= UINT32_MAX
    ensures -0x8000_0000 <= r < 0x8000_0000
    ensures r >= 0 <==> x < 0x8000_0000
    ensures r >= 0 ==> r == x
  {
    if x < 0x8000_0000 then x else x - TWO_POW_32
  }

  /** A Vulkan result code. The success codes the renderer meets are
      `VK_SUCCESS` and `VK_SUBOPTIMAL_KHR`; everything else is an error code. */
  datatype VkResult = Success | Suboptimal | OutOfDate | ErrorCode(name: string)
  {
    /** Whether a returned `vk::ResultValue` (or `std::expected`) carries
        a value: `vulkan-hpp`'s `has_value()` compares the code with
        `VK_SUCCESS`, so `VK_SUBOPTIMAL_KHR` counts as no value. */
    predicate HasValue() {
      Success?
    }

    function Name(): string {
      match this
      case Success => SUCCESS_NAME
      case Suboptimal => SUBOPTIMAL_NAME
      case OutOfDate => OUT_OF_DATE_NAME
      case ErrorCode(n) => n
    }
  }

  /** A `vk::ResultValue<T>`: a result code and the value it carries, which
      is meaningful only when the code has a value. */
  datatype Queried<T> = Queried(result: VkResult, value: T)

  const SUCCESS_NAME := "VK_SUCCESS"
  const SUBOPTIMAL_NAME := "VK_SUBOPTIMAL_KHR"
  const OUT_OF_DATE_NAME := "VK_ERROR_OUT_OF_DATE_KHR"

  datatype Format =
    | Undefined
    | B8G8R8A8Srgb
    | B8G8R8A8Unorm
    | R8G8B8A8Srgb
    | D32Sfloat
    | D32SfloatS8Uint
    | D24UnormS8Uint
    | OtherFormat(code: nat)

  datatype ColorSpace = SrgbNonlinear | OtherColorSpace(code: nat)

  datatype PresentMode = Immediate | Mailbox | Fifo | FifoRelaxed | OtherMode(code: nat)

  datatype ImageTiling = Optimal | Linear | OtherTiling(code: nat)

  datatype ImageLayout =
    | LayoutUndefined
    | TransferDstOptimal
    | ShaderReadOnlyOptimal
    | ColorAttachmentOptimal
    | DepthAttachmentOptimal
    | PresentSrc
    | OtherLayout(code: nat)

  datatype Access = TransferWrite | ShaderRead | ColorAttachmentWrite

  datatype Stage = TopOfPipe | Transfer | FragmentShader | ColorAttachmentOutput | BottomOfPipe | AllGraphics

  datatype Aspect = Color | Depth

  datatype Extent2D = Extent2D(width: u32, height: u32)

  /** `VK_FORMAT_FEATURE_DEPTH_STENCIL_ATTACHMENT_BIT` */
  const DEPTH_STENCIL_ATTACHMENT_BIT: bv32 := 0x200
  /** `VK_QUEUE_GRAPHICS_BIT` */
  const QUEUE_GRAPHICS_BIT: bv32 := 0x1
  /** `VK_MAKE_API_VERSION(0, 1, 3, 0)` */
  const API_VERSION_1_3: nat := 0x40_3000
  /** `VK_EXT_DEBUG_UTILS_EXTENSION_NAME` */
  const DEBUG_UTILS_EXTENSION: string := "VK_EXT_debug_utils"

  /** `VkBufferUsageFlagBits` */
  const BUFFER_USAGE_TRANSFER_SRC: bv32 := 0x1
  const BUFFER_USAGE_TRANSFER_DST: bv32 := 0x2
  const BUFFER_USAGE_UNIFORM: bv32 := 0x10
  const BUFFER_USAGE_INDEX: bv32 := 0x40
  const BUFFER_USAGE_VERTEX: bv32 := 0x80

  /** `VkImageUsageFlagBits` */
  const IMAGE_USAGE_TRANSFER_SRC: bv32 := 0x1
  const IMAGE_USAGE_TRANSFER_DST: bv32 := 0x2
  const IMAGE_USAGE_SAMPLED: bv32 := 0x4
  const IMAGE_USAGE_DEPTH_STENCIL_ATTACHMENT: bv32 := 0x20

  /** `VmaAllocationCreateFlagBits` and `VMA_MEMORY_USAGE_AUTO` */
  const VMA_DEDICATED_MEMORY: bv32 := 0x1
  const VMA_MAPPED: bv32 := 0x4
  const VMA_HOST_ACCESS_SEQUENTIAL_WRITE: bv32 := 0x400
  const VMA_MEMORY_USAGE_AUTO: nat := 7

  /** `(flags & required) == required`: every requested bit is present. */
  predicate HasAll(flags: bv32, required: bv32) {
    flags & required == required
  }
}
