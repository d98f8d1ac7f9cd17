/**
 * The expectations of the repository's test program, checked against the
 * translation. The test program starts from zero stage masks and a zeroed Vulkan
 * structure (so both layouts UNDEFINED), and leaves every other field of the
 * barrier zero: OPTIMAL layout policies, no discard, queue family 0.
 */
module Scenarios {

  import opened Vulkan
  import opened AccessTypes
  import opened Barriers
  import opened BarrierProperties

  /** global_barrier_test_array: the expected masks are what thsvsGetVulkanMemoryBarrier produces. */
  predicate GlobalBarrierTestPasses(prevAccesses: seq<AccessType>, nextAccesses: seq<AccessType>,
                                    srcStages: StageMask, dstStages: StageMask,
                                    srcAccessMask: AccessMask, dstAccessMask: AccessMask)
  {
    var vk := MemoryBarrierFor(GlobalBarrier(prevAccesses, nextAccesses));
    && StagesOf(prevAccesses) == srcStages
    && StagesOf(nextAccesses) == dstStages
    && vk.srcAccessMask == srcAccessMask
    && vk.dstAccessMask == dstAccessMask
  }

  /** The image barrier the test program builds: only the two lists are set. */
  function TestImageBarrier(prevAccesses: seq<AccessType>, nextAccesses: seq<AccessType>): ImageBarrier {
    ImageBarrier(prevAccesses, nextAccesses, OptimalPolicy, OptimalPolicy, false, 0, 0, Image(0),
                 ImageSubresourceRange(0, 0, 0, 0, 0))
  }

  /** image_barrier_test_array: the expected masks and layouts are what thsvsGetVulkanImageMemoryBarrier produces. */
  predicate ImageBarrierTestPasses(prevAccesses: seq<AccessType>, nextAccesses: seq<AccessType>,
                                   srcStages: StageMask, dstStages: StageMask,
                                   srcAccessMask: AccessMask, dstAccessMask: AccessMask,
                                   oldLayout: ImageLayout, newLayout: ImageLayout)
  {
    var vk := ImageMemoryBarrierFor(TestImageBarrier(prevAccesses, nextAccesses), LayoutUndefined, LayoutUndefined);
    && StagesOf(prevAccesses) == srcStages
    && StagesOf(nextAccesses) == dstStages
    && vk.srcAccessMask == srcAccessMask
    && vk.dstAccessMask == dstAccessMask
    && vk.oldLayout == oldLayout
    && vk.newLayout == newLayout
  }

  // ---- Single-access tests, row by row ------------------------------------

  /**
   * With one write before and one access after, a global barrier test passes
   * exactly when the two table rows carry the expected stages and accesses.
   */
  lemma GlobalTestPassesIffRows(prev: AccessType, next: AccessType, srcStages: StageMask, dstStages: StageMask,
                                srcAccessMask: AccessMask, dstAccessMask: AccessMask)
    requires IsWrite(prev)
    ensures GlobalBarrierTestPasses([prev], [next], srcStages, dstStages, srcAccessMask, dstAccessMask) <==>
      && Info(prev).stageMask == srcStages && Info(prev).accessMask == srcAccessMask
      && Info(next).stageMask == dstStages && Info(next).accessMask == dstAccessMask
  {
    SingleAccess(prev);
    SingleAccess(next);
  }

  /**
   * With one write before and two accesses after, a global barrier test passes
   * exactly when the destination rows together carry the expected bits.
   */
  lemma GlobalTestWithTwoNextAccessesPassesIffRows(prev: AccessType, next0: AccessType, next1: AccessType,
                                                   srcStages: StageMask, dstStages: StageMask,
                                                   srcAccessMask: AccessMask, dstAccessMask: AccessMask)
    requires IsWrite(prev)
    ensures GlobalBarrierTestPasses([prev], [next0, next1], srcStages, dstStages, srcAccessMask, dstAccessMask) <==>
      && Info(prev).stageMask == srcStages && Info(prev).accessMask == srcAccessMask
      && Info(next0).stageMask + Info(next1).stageMask == dstStages
      && Info(next0).accessMask + Info(next1).accessMask == dstAccessMask
  {
    SingleAccess(prev);
    TwoAccesses(next0, next1);
  }

  /**
   * With one write before and one access after, an image barrier test passes
   * exactly when the two table rows are the expected ones, layouts included.
   */
  lemma ImageTestPassesIffRows(prev: AccessType, next: AccessType, srcStages: StageMask, dstStages: StageMask,
                               srcAccessMask: AccessMask, dstAccessMask: AccessMask,
                               oldLayout: ImageLayout, newLayout: ImageLayout)
    requires IsWrite(prev)
    ensures ImageBarrierTestPasses([prev], [next], srcStages, dstStages, srcAccessMask, dstAccessMask,
                                   oldLayout, newLayout) <==>
      && Info(prev) == AccessInfo(srcStages, srcAccessMask, oldLayout)
      && Info(next) == AccessInfo(dstStages, dstAccessMask, newLayout)
  {
    SingleAccess(prev);
    SingleAccess(next);
  }

  // ---- Tests the table meets ------------------------------------------------

  /** Global barrier, compute write, compute read of a storage resource. */
  lemma ComputeWriteThenComputeReadTest()
    ensures GlobalBarrierTestPasses([ComputeShaderWrite], [ComputeShaderReadOther],
      {ComputeShaderBit}, {ComputeShaderBit}, {ShaderWriteBit}, {ShaderReadBit})
  {
    GlobalTestPassesIffRows(ComputeShaderWrite, ComputeShaderReadOther,
      {ComputeShaderBit}, {ComputeShaderBit}, {ShaderWriteBit}, {ShaderReadBit});
  }

  /** Global barrier, compute write, index buffer read. */
  lemma ComputeWriteThenIndexReadTest()
    ensures GlobalBarrierTestPasses([ComputeShaderWrite], [IndexBuffer],
      {ComputeShaderBit}, {VertexInputBit}, {ShaderWriteBit}, {IndexReadBit})
  {
    GlobalTestPassesIffRows(ComputeShaderWrite, IndexBuffer,
      {ComputeShaderBit}, {VertexInputBit}, {ShaderWriteBit}, {IndexReadBit});
  }

  /** Global barrier, compute write, index buffer and compute uniform reads. */
  lemma ComputeWriteThenIndexAndUniformReadTest()
    ensures GlobalBarrierTestPasses([ComputeShaderWrite], [IndexBuffer, ComputeShaderReadUniformBuffer],
      {ComputeShaderBit}, {VertexInputBit, ComputeShaderBit}, {ShaderWriteBit}, {IndexReadBit, UniformReadBit})
  {
    GlobalTestWithTwoNextAccessesPassesIffRows(ComputeShaderWrite, IndexBuffer, ComputeShaderReadUniformBuffer,
      {ComputeShaderBit}, {VertexInputBit, ComputeShaderBit}, {ShaderWriteBit}, {IndexReadBit, UniformReadBit});
  }

  /** Global barrier, compute write, indirect buffer read. */
  lemma ComputeWriteThenIndirectReadTest()
    ensures GlobalBarrierTestPasses([ComputeShaderWrite], [IndirectBuffer],
      {ComputeShaderBit}, {DrawIndirectBit}, {ShaderWriteBit}, {IndirectCommandReadBit})
  {
    GlobalTestPassesIffRows(ComputeShaderWrite, IndirectBuffer,
      {ComputeShaderBit}, {DrawIndirectBit}, {ShaderWriteBit}, {IndirectCommandReadBit});
  }

  /** Global barrier, compute write, indirect buffer and fragment uniform reads. */
  lemma ComputeWriteThenIndirectAndUniformReadTest()
    ensures GlobalBarrierTestPasses([ComputeShaderWrite], [IndirectBuffer, FragmentShaderReadUniformBuffer],
      {ComputeShaderBit}, {DrawIndirectBit, FragmentShaderBit}, {ShaderWriteBit}, {IndirectCommandReadBit, UniformReadBit})
  {
    GlobalTestWithTwoNextAccessesPassesIffRows(ComputeShaderWrite, IndirectBuffer, FragmentShaderReadUniformBuffer,
      {ComputeShaderBit}, {DrawIndirectBit, FragmentShaderBit}, {ShaderWriteBit}, {IndirectCommandReadBit, UniformReadBit});
  }

  /** Global barrier, transfer write, vertex buffer read. */
  lemma TransferWriteThenVertexReadTest()
    ensures GlobalBarrierTestPasses([TransferWrite], [VertexBuffer],
      {TransferBit}, {VertexInputBit}, {TransferWriteBit}, {VertexAttributeReadBit})
  {
    GlobalTestPassesIffRows(TransferWrite, VertexBuffer,
      {TransferBit}, {VertexInputBit}, {TransferWriteBit}, {VertexAttributeReadBit});
  }

  /** Global barrier, GENERAL on both sides. */
  lemma FullPipelineBarrierTest()
    ensures GlobalBarrierTestPasses([General], [General],
      {AllCommandsBit}, {AllCommandsBit}, {MemoryReadBit, MemoryWriteBit}, {MemoryReadBit, MemoryWriteBit})
  {
    GlobalTestPassesIffRows(General, General,
      {AllCommandsBit}, {AllCommandsBit}, {MemoryReadBit, MemoryWriteBit}, {MemoryReadBit, MemoryWriteBit});
  }

  /** Image barrier, compute write, fragment sampled read. */
  lemma ComputeWriteThenFragmentSampleTest()
    ensures ImageBarrierTestPasses([ComputeShaderWrite], [FragmentShaderReadSampledImageOrUniformTexelBuffer],
      {ComputeShaderBit}, {FragmentShaderBit}, {ShaderWriteBit}, {ShaderReadBit},
      LayoutGeneral, LayoutShaderReadOnlyOptimal)
  {
    ImageTestPassesIffRows(ComputeShaderWrite, FragmentShaderReadSampledImageOrUniformTexelBuffer,
      {ComputeShaderBit}, {FragmentShaderBit}, {ShaderWriteBit}, {ShaderReadBit}, LayoutGeneral,
      LayoutShaderReadOnlyOptimal);
  }

  /** Image barrier, colour attachment write, compute sampled read. */
  lemma ColorWriteThenComputeSampleTest()
    ensures ImageBarrierTestPasses([ColorAttachmentWrite], [ComputeShaderReadSampledImageOrUniformTexelBuffer],
      {ColorAttachmentOutputBit}, {ComputeShaderBit}, {ColorAttachmentWriteBit}, {ShaderReadBit},
      LayoutColorAttachmentOptimal, LayoutShaderReadOnlyOptimal)
  {
    ImageTestPassesIffRows(ColorAttachmentWrite, ComputeShaderReadSampledImageOrUniformTexelBuffer,
      {ColorAttachmentOutputBit}, {ComputeShaderBit}, {ColorAttachmentWriteBit}, {ShaderReadBit},
      LayoutColorAttachmentOptimal, LayoutShaderReadOnlyOptimal);
  }

  /** Image barrier, depth attachment write, compute sampled read. */
  lemma DepthWriteThenComputeSampleTest()
    ensures ImageBarrierTestPasses([DepthStencilAttachmentWrite], [ComputeShaderReadSampledImageOrUniformTexelBuffer],
      {EarlyFragmentTestsBit, LateFragmentTestsBit}, {ComputeShaderBit}, {DepthStencilAttachmentWriteBit}, {ShaderReadBit},
      LayoutDepthStencilAttachmentOptimal, LayoutShaderReadOnlyOptimal)
  {
    ImageTestPassesIffRows(DepthStencilAttachmentWrite, ComputeShaderReadSampledImageOrUniformTexelBuffer,
      {EarlyFragmentTestsBit, LateFragmentTestsBit}, {ComputeShaderBit}, {DepthStencilAttachmentWriteBit},
      {ShaderReadBit}, LayoutDepthStencilAttachmentOptimal, LayoutShaderReadOnlyOptimal);
  }

  /** Image barrier, depth attachment write, fragment sampled read. */
  lemma DepthWriteThenFragmentSampleTest()
    ensures ImageBarrierTestPasses([DepthStencilAttachmentWrite], [FragmentShaderReadSampledImageOrUniformTexelBuffer],
      {EarlyFragmentTestsBit, LateFragmentTestsBit}, {FragmentShaderBit}, {DepthStencilAttachmentWriteBit}, {ShaderReadBit},
      LayoutDepthStencilAttachmentOptimal, LayoutShaderReadOnlyOptimal)
  {
    ImageTestPassesIffRows(DepthStencilAttachmentWrite, FragmentShaderReadSampledImageOrUniformTexelBuffer,
      {EarlyFragmentTestsBit, LateFragmentTestsBit}, {FragmentShaderBit}, {DepthStencilAttachmentWriteBit},
      {ShaderReadBit}, LayoutDepthStencilAttachmentOptimal, LayoutShaderReadOnlyOptimal);
  }

  /** Image barrier, colour attachment write, colour input attachment read. */
  lemma ColorWriteThenColorInputAttachmentTest()
    ensures ImageBarrierTestPasses([ColorAttachmentWrite], [FragmentShaderReadColorInputAttachment],
      {ColorAttachmentOutputBit}, {FragmentShaderBit}, {ColorAttachmentWriteBit}, {InputAttachmentReadBit},
      LayoutColorAttachmentOptimal, LayoutShaderReadOnlyOptimal)
  {
    ImageTestPassesIffRows(ColorAttachmentWrite, FragmentShaderReadColorInputAttachment,
      {ColorAttachmentOutputBit}, {FragmentShaderBit}, {ColorAttachmentWriteBit}, {InputAttachmentReadBit},
      LayoutColorAttachmentOptimal, LayoutShaderReadOnlyOptimal);
  }

  /** Image barrier, colour attachment write, fragment sampled read. */
  lemma ColorWriteThenFragmentSampleTest()
    ensures ImageBarrierTestPasses([ColorAttachmentWrite], [FragmentShaderReadSampledImageOrUniformTexelBuffer],
      {ColorAttachmentOutputBit}, {FragmentShaderBit}, {ColorAttachmentWriteBit}, {ShaderReadBit},
      LayoutColorAttachmentOptimal, LayoutShaderReadOnlyOptimal)
  {
    ImageTestPassesIffRows(ColorAttachmentWrite, FragmentShaderReadSampledImageOrUniformTexelBuffer,
      {ColorAttachmentOutputBit}, {FragmentShaderBit}, {ColorAttachmentWriteBit}, {ShaderReadBit},
      LayoutColorAttachmentOptimal, LayoutShaderReadOnlyOptimal);
  }

  /** Image barrier, colour attachment write, vertex sampled read. */
  lemma ColorWriteThenVertexSampleTest()
    ensures ImageBarrierTestPasses([ColorAttachmentWrite], [VertexShaderReadSampledImageOrUniformTexelBuffer],
      {ColorAttachmentOutputBit}, {VertexShaderBit}, {ColorAttachmentWriteBit}, {ShaderReadBit},
      LayoutColorAttachmentOptimal, LayoutShaderReadOnlyOptimal)
  {
    ImageTestPassesIffRows(ColorAttachmentWrite, VertexShaderReadSampledImageOrUniformTexelBuffer,
      {ColorAttachmentOutputBit}, {VertexShaderBit}, {ColorAttachmentWriteBit}, {ShaderReadBit},
      LayoutColorAttachmentOptimal, LayoutShaderReadOnlyOptimal);
  }

  /** Image barrier, transfer write, fragment sampled read. */
  lemma TransferWriteThenFragmentSampleTest()
    ensures ImageBarrierTestPasses([TransferWrite], [FragmentShaderReadSampledImageOrUniformTexelBuffer],
      {TransferBit}, {FragmentShaderBit}, {TransferWriteBit}, {ShaderReadBit},
      LayoutTransferDstOptimal, LayoutShaderReadOnlyOptimal)
  {
    ImageTestPassesIffRows(TransferWrite, FragmentShaderReadSampledImageOrUniformTexelBuffer,
      {TransferBit}, {FragmentShaderBit}, {TransferWriteBit}, {ShaderReadBit}, LayoutTransferDstOptimal,
      LayoutShaderReadOnlyOptimal);
  }

  // ---- Tests whose expectations differ from the table ------------------------

  /**
   * A read followed by a compute write: the test expects no destination
   * access, but every next access contributes its bits, the write included.
   */
  lemma ReadThenComputeWriteTestContradictsTable()
    ensures MemoryBarrierFor(GlobalBarrier([ComputeShaderReadOther], [ComputeShaderWrite])).dstAccessMask == {ShaderWriteBit}
    ensures !GlobalBarrierTestPasses([ComputeShaderReadOther], [ComputeShaderWrite],
      {ComputeShaderBit}, {ComputeShaderBit}, {}, {})
  {
    SingleAccess(ComputeShaderReadOther);
    SingleAccess(ComputeShaderWrite);
  }

  /**
   * A depth input attachment read: the test expects INPUT_ATTACHMENT_READ,
   * the table row carries DEPTH_STENCIL_ATTACHMENT_READ.
   */
  lemma DepthInputAttachmentTestContradictsTable()
    ensures ImageMemoryBarrierFor(TestImageBarrier([DepthStencilAttachmentWrite], [FragmentShaderReadDepthStencilInputAttachment]),
      LayoutUndefined, LayoutUndefined).dstAccessMask == {DepthStencilAttachmentReadBit}
    ensures !ImageBarrierTestPasses([DepthStencilAttachmentWrite], [FragmentShaderReadDepthStencilInputAttachment],
      {EarlyFragmentTestsBit, LateFragmentTestsBit}, {FragmentShaderBit}, {DepthStencilAttachmentWriteBit}, {InputAttachmentReadBit},
      LayoutDepthStencilAttachmentOptimal, LayoutDepthStencilReadOnlyOptimal)
  {
    SingleAccess(DepthStencilAttachmentWrite);
    SingleAccess(FragmentShaderReadDepthStencilInputAttachment);
  }

  /**
   * A sampled read followed by a colour attachment write: the test expects no
   * destination access, the translation gives COLOR_ATTACHMENT_WRITE.
   */
  lemma ReadThenColorWriteTestContradictsTable()
    ensures ImageMemoryBarrierFor(TestImageBarrier([FragmentShaderReadSampledImageOrUniformTexelBuffer], [ColorAttachmentWrite]),
      LayoutUndefined, LayoutUndefined).dstAccessMask == {ColorAttachmentWriteBit}
    ensures !ImageBarrierTestPasses([FragmentShaderReadSampledImageOrUniformTexelBuffer], [ColorAttachmentWrite],
      {FragmentShaderBit}, {ColorAttachmentOutputBit}, {}, {},
      LayoutShaderReadOnlyOptimal, LayoutColorAttachmentOptimal)
  {
    SingleAccess(FragmentShaderReadSampledImageOrUniformTexelBuffer);
    SingleAccess(ColorAttachmentWrite);
  }

  /**
   * NONE followed by a transfer read: the test expects TOP_OF_PIPE and no
   * destination access, the translation gives no source stage (the NONE row
   * is empty) and TRANSFER_READ.
   */
  lemma NoneThenTransferReadTestContradictsTable()
    ensures StagesOf([NoAccess]) == {}
    ensures MemoryBarrierFor(GlobalBarrier([NoAccess], [TransferRead])).dstAccessMask == {TransferReadBit}
    ensures !GlobalBarrierTestPasses([NoAccess], [TransferRead], {TopOfPipeBit}, {TransferBit}, {}, {})
  {
    SingleAccess(NoAccess);
  }

  /**
   * A colour write followed by presentation: the test expects BOTTOM_OF_PIPE,
   * the PRESENT row carries TOP_OF_PIPE (BOTTOM_OF_PIPE is only the seed of
   * the command wrappers' destination mask).
   */
  lemma PresentationTestContradictsTable()
    ensures StagesOf([Present]) == {TopOfPipeBit}
    ensures !ImageBarrierTestPasses([ColorAttachmentWrite], [Present],
      {ColorAttachmentOutputBit}, {BottomOfPipeBit}, {ColorAttachmentWriteBit}, {},
      LayoutColorAttachmentOptimal, LayoutPresentSrcKhr)
  {
    SingleAccess(Present);
    SingleAccess(ColorAttachmentWrite);
  }
}
