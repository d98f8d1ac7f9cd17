/**
 * The parts of the Vulkan API that the synchronization helpers read and
 * produce. Bit values are not known here, so every flag type is a set of
 * named bits: a bitwise OR is a union and the value 0 is the empty set.
 */
module Vulkan {

  newtype u32 = x: int | 0 <= x < 0x1_0000_0000
  newtype u64 = x: int | 0 <= x < 0x1_0000_0000_0000_0000

  /** VkPipelineStageFlagBits used by the access table and the wrappers. */
  datatype PipelineStage =
    | TopOfPipeBit
    | DrawIndirectBit
    | VertexInputBit
    | VertexShaderBit
    | TessellationControlShaderBit
    | TessellationEvaluationShaderBit
    | GeometryShaderBit
    | FragmentShaderBit
    | EarlyFragmentTestsBit
    | LateFragmentTestsBit
    | ColorAttachmentOutputBit
    | ComputeShaderBit
    | TransferBit
    | BottomOfPipeBit
    | HostBit
    | AllCommandsBit
    | CommandProcessBitNvx

  /** VkAccessFlagBits used by the access table. */
  datatype AccessFlag =
    | IndirectCommandReadBit
    | IndexReadBit
    | VertexAttributeReadBit
    | UniformReadBit
    | InputAttachmentReadBit
    | ShaderReadBit
    | ShaderWriteBit
    | ColorAttachmentReadBit
    | ColorAttachmentWriteBit
    | DepthStencilAttachmentReadBit
    | DepthStencilAttachmentWriteBit
    | TransferReadBit
    | TransferWriteBit
    | HostReadBit
    | HostWriteBit
    | MemoryReadBit
    | MemoryWriteBit
    | CommandProcessReadBitNvx
    | CommandProcessWriteBitNvx

  /** VkPipelineStageFlags: a bitwise OR of stage bits. */
  type StageMask = set<PipelineStage>

  /** VkAccessFlags: a bitwise OR of access bits. */
  type AccessMask = set<AccessFlag>

  /** The VkImageLayout values the access table and the layout policies produce. */
  datatype ImageLayout =
    | LayoutUndefined
    | LayoutGeneral
    | LayoutColorAttachmentOptimal
    | LayoutDepthStencilAttachmentOptimal
    | LayoutDepthStencilReadOnlyOptimal
    | LayoutShaderReadOnlyOptimal
    | LayoutTransferSrcOptimal
    | LayoutTransferDstOptimal
    | LayoutPresentSrcKhr
    | LayoutSharedPresentKhr
    | LayoutDepthReadOnlyStencilAttachmentOptimalKhr
    | LayoutDepthAttachmentStencilReadOnlyOptimalKhr

  /** The VkStructureType tags of the three barrier structures. */
  datatype StructureType =
    | StructureTypeMemoryBarrier
    | StructureTypeBufferMemoryBarrier
    | StructureTypeImageMemoryBarrier

  /** A `const void*` extension-chain address; 0 is NULL. */
  type VoidPtr = u64

  const NULL: VoidPtr := 0

  /** Non-dispatchable and dispatchable handles, passed through untouched. */
  datatype Buffer = Buffer(handle: u64)
  datatype Image = Image(handle: u64)
  datatype Event = Event(handle: u64)
  datatype CommandBuffer = CommandBuffer(handle: u64)

  /** VkImageSubresourceRange, passed through untouched. */
  datatype ImageSubresourceRange = ImageSubresourceRange(
    aspectMask: u32,
    baseMipLevel: u32,
    levelCount: u32,
    baseArrayLayer: u32,
    layerCount: u32)

  /** VkMemoryBarrier. */
  datatype MemoryBarrier = MemoryBarrier(
    sType: StructureType,
    pNext: VoidPtr,
    srcAccessMask: AccessMask,
    dstAccessMask: AccessMask)

  /** VkBufferMemoryBarrier. */
  datatype BufferMemoryBarrier = BufferMemoryBarrier(
    sType: StructureType,
    pNext: VoidPtr,
    srcAccessMask: AccessMask,
    dstAccessMask: AccessMask,
    srcQueueFamilyIndex: u32,
    dstQueueFamilyIndex: u32,
    buffer: Buffer,
    offset: u64,
    size: u64)

  /** VkImageMemoryBarrier. */
  datatype ImageMemoryBarrier = ImageMemoryBarrier(
    sType: StructureType,
    pNext: VoidPtr,
    srcAccessMask: AccessMask,
    dstAccessMask: AccessMask,
    oldLayout: ImageLayout,
    newLayout: ImageLayout,
    srcQueueFamilyIndex: u32,
    dstQueueFamilyIndex: u32,
    image: Image,
    subresourceRange: ImageSubresourceRange)
}
