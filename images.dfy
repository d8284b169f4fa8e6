/** Image views and the layout-transition table of the texture upload. */
module Images {
  import opened Outcomes
  import opened Vk
  import opened Commands

  /** The four masks of a layout-transition barrier. */
  datatype Masks = Masks(srcAccess: set<Access>, dstAccess: set<Access>, srcStage: set<Stage>, dstStage: set<Stage>)

  const UNSUPPORTED_TRANSITION := "Unsupposed layout transition"

  /** The `(old, new)` table of `transition_image_texture_layout`: only the
      two transitions of a texture upload are known, anything else is an
      invalid argument. */
  function TransitionMasks(oldLayout: ImageLayout, newLayout: ImageLayout): (r: Result<Masks>)
    ensures oldLayout == LayoutUndefined && newLayout == TransferDstOptimal ==>
              r == Ok(Masks({}, {TransferWrite}, {TopOfPipe}, {Transfer}))
    ensures oldLayout == TransferDstOptimal && newLayout == ShaderReadOnlyOptimal ==>
              r == Ok(Masks({TransferWrite}, {ShaderRead}, {Transfer}, {FragmentShader}))
    ensures r.Ok? <==> (oldLayout, newLayout) in {(LayoutUndefined, TransferDstOptimal),
                                                   (TransferDstOptimal, ShaderReadOnlyOptimal)}
    ensures r.Err? ==> r.error == InvalidArgument(UNSUPPORTED_TRANSITION)
  {
    if oldLayout == LayoutUndefined && newLayout == TransferDstOptimal then
      Ok(Masks({}, {TransferWrite}, {TopOfPipe}, {Transfer}))
    else if oldLayout == TransferDstOptimal && newLayout == ShaderReadOnlyOptimal then
      Ok(Masks({TransferWrite}, {ShaderRead}, {Transfer}, {FragmentShader}))
    else
      Err(InvalidArgument(UNSUPPORTED_TRANSITION))
  }

  /** The subresources a texture barrier or view covers: `mips` levels from
      level 0 of the single array layer. */
  function AllLevels(aspect: Aspect, mips: nat): (r: SubresourceRange)
    ensures r.aspect == aspect && r.levelCount == mips && r.layerCount == 1
    ensures r.baseMipLevel == 0 && r.baseArrayLayer == 0
  {
    SubresourceRange(aspect, 0, mips, 0, 1)
  }

  /** The barrier recorded for a supported texture transition. */
  function TextureBarrier(image: nat, oldLayout: ImageLayout, newLayout: ImageLayout, mips: nat, m: Masks): (b: ImageBarrier)
    ensures b.image == image && b.oldLayout == oldLayout && b.newLayout == newLayout
    ensures b.range == AllLevels(Color, mips)
    ensures b.srcAccess == m.srcAccess && b.dstAccess == m.dstAccess
    ensures b.srcStage == m.srcStage && b.dstStage == m.dstStage
  {
    ImageBarrier(m.srcStage, m.srcAccess, m.dstStage, m.dstAccess, oldLayout, newLayout, image, AllLevels(Color, mips))
  }

  /** A 2D `vk::ImageView`. */
  datatype ImageView = ImageView(image: nat, format: Format, range: SubresourceRange)

  const VIEW_CREATE_FAILED := "Failed to create image view"

  /** `create_image_view`: a 2D view of `mips` levels from level 0 and one
      layer; `res` is what `createImageView` returns. */
  function CreateImageView(image: nat, format: Format, aspect: Aspect, mips: nat, res: VkResult): (r: Result<ImageView>)
    ensures res.HasValue() <==> r.Ok?
    ensures r.Ok? ==> r.value.image == image && r.value.format == format
    ensures r.Ok? ==> r.value.range.aspect == aspect && r.value.range.baseMipLevel == 0
                      && r.value.range.levelCount == mips
    ensures r.Ok? ==> r.value.range.baseArrayLayer == 0 && r.value.range.layerCount == 1
    ensures r.Err? ==> r.error == VkError(VIEW_CREATE_FAILED, res.Name())
  {
    if !res.HasValue() then Err(VkError(VIEW_CREATE_FAILED, res.Name()))
    else Ok(ImageView(image, format, AllLevels(aspect, mips)))
  }

  /** The region of `copy_buffer_to_image`: the whole `width` x `height`
      level 0 of the color aspect, tightly packed from buffer offset 0. */
  function TextureRegion(width: nat, height: nat): (r: BufferImageCopy)
    ensures r.bufferOffset == 0 && r.bufferRowLength == 0 && r.bufferImageHeight == 0
    ensures r.subresource == SubresourceRange(Color, 0, 1, 0, 1)
    ensures r.imageOffset == Offset3D(0, 0, 0) && r.imageExtent == Extent3D(width, height, 1)
    ensures RegionBytes(r) == width * height * TEXEL_BYTES
  {
    BufferImageCopy(0, 0, 0, SubresourceRange(Color, 0, 1, 0, 1), Offset3D(0, 0, 0), Extent3D(width, height, 1))
  }
}
