/**
 * The three barrier translators: each folds a list of previous accesses and a
 * list of next accesses into pipeline stages and one native Vulkan barrier.
 * The fold functions below specify the loops; the methods are the loops.
 */
module Barriers {

  import opened Vulkan
  import opened AccessTypes

  /** ThsvsImageLayout: how the layouts of an image barrier are chosen. */
  datatype LayoutPolicy = OptimalPolicy | GeneralPolicy | GeneralAndPresentationPolicy

  /** ThsvsGlobalBarrier; each list stands for a count and an array. */
  datatype GlobalBarrier = GlobalBarrier(prevAccesses: seq<AccessType>, nextAccesses: seq<AccessType>)

  /** ThsvsBufferBarrier. */
  datatype BufferBarrier = BufferBarrier(
    prevAccesses: seq<AccessType>,
    nextAccesses: seq<AccessType>,
    srcQueueFamilyIndex: u32,
    dstQueueFamilyIndex: u32,
    buffer: Buffer,
    offset: u64,
    size: u64)

  /** ThsvsImageBarrier. */
  datatype ImageBarrier = ImageBarrier(
    prevAccesses: seq<AccessType>,
    nextAccesses: seq<AccessType>,
    prevLayout: LayoutPolicy,
    nextLayout: LayoutPolicy,
    discardContents: bool,
    srcQueueFamilyIndex: u32,
    dstQueueFamilyIndex: u32,
    image: Image,
    subresourceRange: ImageSubresourceRange)

  // ---- Specification of the loops -------------------------------------------

  /** The OR of the stage masks of all the accesses, folded left to right. */
  function StagesOf(accesses: seq<AccessType>): StageMask {
    if |accesses| == 0 then {}
    else StagesOf(accesses[..|accesses| - 1]) + Info(accesses[|accesses| - 1]).stageMask
  }

  /** The OR of the access masks of all the accesses (how a next list is folded). */
  function AccessesOf(accesses: seq<AccessType>): AccessMask {
    if |accesses| == 0 then {}
    else AccessesOf(accesses[..|accesses| - 1]) + Info(accesses[|accesses| - 1]).accessMask
  }

  /**
   * The OR of the access masks of the accesses declared after PRESENT (how a
   * previous list is folded: reads make nothing available).
   */
  function WriteAccessesOf(accesses: seq<AccessType>): AccessMask {
    if |accesses| == 0 then {}
    else
      var last := accesses[|accesses| - 1];
      WriteAccessesOf(accesses[..|accesses| - 1]) + (if IsWrite(last) then Info(last).accessMask else {})
  }

  /** The layout one access resolves to under a layout policy. */
  function ResolveLayout(policy: LayoutPolicy, access: AccessType): ImageLayout {
    match policy
    case GeneralPolicy => if access == Present then LayoutPresentSrcKhr else LayoutGeneral
    case OptimalPolicy => Info(access).imageLayout
    case GeneralAndPresentationPolicy => LayoutSharedPresentKhr
  }

  /**
   * The old layout after the previous-access loop, starting from `stored`:
   * every iteration overwrites it, so the last access decides, and with
   * discardContents every iteration writes UNDEFINED.
   */
  function OldLayoutAfter(policy: LayoutPolicy, discardContents: bool, accesses: seq<AccessType>,
                          stored: ImageLayout): ImageLayout
  {
    if |accesses| == 0 then stored
    else if discardContents then LayoutUndefined
    else ResolveLayout(policy, accesses[|accesses| - 1])
  }

  /** The new layout after the next-access loop, starting from `stored`. */
  function NewLayoutAfter(policy: LayoutPolicy, accesses: seq<AccessType>, stored: ImageLayout): ImageLayout {
    if |accesses| == 0 then stored else ResolveLayout(policy, accesses[|accesses| - 1])
  }

  /** The VkMemoryBarrier a global barrier translates to. */
  function MemoryBarrierFor(barrier: GlobalBarrier): MemoryBarrier {
    MemoryBarrier(StructureTypeMemoryBarrier, NULL,
                  WriteAccessesOf(barrier.prevAccesses), AccessesOf(barrier.nextAccesses))
  }

  /** The VkBufferMemoryBarrier a buffer barrier translates to. */
  function BufferMemoryBarrierFor(barrier: BufferBarrier): BufferMemoryBarrier {
    BufferMemoryBarrier(StructureTypeBufferMemoryBarrier, NULL,
                        WriteAccessesOf(barrier.prevAccesses), AccessesOf(barrier.nextAccesses),
                        barrier.srcQueueFamilyIndex, barrier.dstQueueFamilyIndex,
                        barrier.buffer, barrier.offset, barrier.size)
  }

  /**
   * The VkImageMemoryBarrier an image barrier translates to, when the
   * caller's structure held `oldLayoutIn` and `newLayoutIn` beforehand.
   */
  function ImageMemoryBarrierFor(barrier: ImageBarrier, oldLayoutIn: ImageLayout,
                                 newLayoutIn: ImageLayout): ImageMemoryBarrier
  {
    ImageMemoryBarrier(StructureTypeImageMemoryBarrier, NULL,
                       WriteAccessesOf(barrier.prevAccesses), AccessesOf(barrier.nextAccesses),
                       OldLayoutAfter(barrier.prevLayout, barrier.discardContents, barrier.prevAccesses, oldLayoutIn),
                       NewLayoutAfter(barrier.nextLayout, barrier.nextAccesses, newLayoutIn),
                       barrier.srcQueueFamilyIndex, barrier.dstQueueFamilyIndex,
                       barrier.image, barrier.subresourceRange)
  }

  // ---- The translators ------------------------------------------------------

  /**
   * thsvsGetVulkanMemoryBarrier. The stage masks the caller owns come in as
   * `srcStagesIn`/`dstStagesIn` and go out with the accesses' stages ORed in.
   */
  method GetVulkanMemoryBarrier(barrier: GlobalBarrier, srcStagesIn: StageMask, dstStagesIn: StageMask)
    returns (srcStages: StageMask, dstStages: StageMask, vkBarrier: MemoryBarrier)
    ensures srcStages == srcStagesIn + StagesOf(barrier.prevAccesses)
    ensures dstStages == dstStagesIn + StagesOf(barrier.nextAccesses)
    ensures vkBarrier == MemoryBarrierFor(barrier)
  {
    vkBarrier := MemoryBarrier(StructureTypeMemoryBarrier, NULL, {}, {});
    srcStages, dstStages := srcStagesIn, dstStagesIn;

    var prev := barrier.prevAccesses;
    for i := 0 to |prev|
      invariant srcStages == srcStagesIn + StagesOf(prev[..i])
      invariant vkBarrier == MemoryBarrier(StructureTypeMemoryBarrier, NULL, WriteAccessesOf(prev[..i]), {})
    {
      var prevAccess := prev[i];
      var prevAccessInfo := Info(prevAccess);
      assert prev[..i + 1][..i] == prev[..i];
      srcStages := srcStages + prevAccessInfo.stageMask;
      if Ordinal(prevAccess) > Ordinal(Present) {
        vkBarrier := vkBarrier.(srcAccessMask := vkBarrier.srcAccessMask + prevAccessInfo.accessMask);
      }
    }
    assert prev[..|prev|] == prev;

    var next := barrier.nextAccesses;
    for i := 0 to |next|
      invariant dstStages == dstStagesIn + StagesOf(next[..i])
      invariant vkBarrier == MemoryBarrier(StructureTypeMemoryBarrier, NULL, WriteAccessesOf(prev), AccessesOf(next[..i]))
    {
      var nextAccess := next[i];
      var nextAccessInfo := Info(nextAccess);
      assert next[..i + 1][..i] == next[..i];
      dstStages := dstStages + nextAccessInfo.stageMask;
      vkBarrier := vkBarrier.(dstAccessMask := vkBarrier.dstAccessMask + nextAccessInfo.accessMask);
    }
    assert next[..|next|] == next;
  }

  /** thsvsGetVulkanBufferMemoryBarrier: as above, with the buffer range and queue families copied. */
  method GetVulkanBufferMemoryBarrier(barrier: BufferBarrier, srcStagesIn: StageMask, dstStagesIn: StageMask)
    returns (srcStages: StageMask, dstStages: StageMask, vkBarrier: BufferMemoryBarrier)
    ensures srcStages == srcStagesIn + StagesOf(barrier.prevAccesses)
    ensures dstStages == dstStagesIn + StagesOf(barrier.nextAccesses)
    ensures vkBarrier == BufferMemoryBarrierFor(barrier)
  {
    vkBarrier := BufferMemoryBarrier(StructureTypeBufferMemoryBarrier, NULL, {}, {},
                                     barrier.srcQueueFamilyIndex, barrier.dstQueueFamilyIndex,
                                     barrier.buffer, barrier.offset, barrier.size);
    srcStages, dstStages := srcStagesIn, dstStagesIn;

    var prev := barrier.prevAccesses;
    for i := 0 to |prev|
      invariant srcStages == srcStagesIn + StagesOf(prev[..i])
      invariant vkBarrier == BufferMemoryBarrierFor(barrier).(srcAccessMask := WriteAccessesOf(prev[..i]), dstAccessMask := {})
    {
      var prevAccess := prev[i];
      var prevAccessInfo := Info(prevAccess);
      assert prev[..i + 1][..i] == prev[..i];
      srcStages := srcStages + prevAccessInfo.stageMask;
      if Ordinal(prevAccess) > Ordinal(Present) {
        vkBarrier := vkBarrier.(srcAccessMask := vkBarrier.srcAccessMask + prevAccessInfo.accessMask);
      }
    }
    assert prev[..|prev|] == prev;

    var next := barrier.nextAccesses;
    for i := 0 to |next|
      invariant dstStages == dstStagesIn + StagesOf(next[..i])
      invariant vkBarrier == BufferMemoryBarrierFor(barrier).(dstAccessMask := AccessesOf(next[..i]))
    {
      var nextAccess := next[i];
      var nextAccessInfo := Info(nextAccess);
      assert next[..i + 1][..i] == next[..i];
      dstStages := dstStages + nextAccessInfo.stageMask;
      vkBarrier := vkBarrier.(dstAccessMask := vkBarrier.dstAccessMask + nextAccessInfo.accessMask);
    }
    assert next[..|next|] == next;
  }

  /**
   * thsvsGetVulkanImageMemoryBarrier. `vkBarrierIn` is what the caller's
   * structure held before the call: its layouts survive an empty list.
   */
  method GetVulkanImageMemoryBarrier(barrier: ImageBarrier, srcStagesIn: StageMask, dstStagesIn: StageMask,
                                     vkBarrierIn: ImageMemoryBarrier)
    returns (srcStages: StageMask, dstStages: StageMask, vkBarrier: ImageMemoryBarrier)
    ensures srcStages == srcStagesIn + StagesOf(barrier.prevAccesses)
    ensures dstStages == dstStagesIn + StagesOf(barrier.nextAccesses)
    ensures vkBarrier == ImageMemoryBarrierFor(barrier, vkBarrierIn.oldLayout, vkBarrierIn.newLayout)
  {
    vkBarrier := vkBarrierIn.(
      sType := StructureTypeImageMemoryBarrier,
      pNext := NULL,
      srcAccessMask := {},
      dstAccessMask := {},
      srcQueueFamilyIndex := barrier.srcQueueFamilyIndex,
      dstQueueFamilyIndex := barrier.dstQueueFamilyIndex,
      image := barrier.image,
      subresourceRange := barrier.subresourceRange);
    srcStages, dstStages := srcStagesIn, dstStagesIn;
    ghost var expected := ImageMemoryBarrierFor(barrier, vkBarrierIn.oldLayout, vkBarrierIn.newLayout);

    var prev := barrier.prevAccesses;
    for i := 0 to |prev|
      invariant srcStages == srcStagesIn + StagesOf(prev[..i])
      invariant vkBarrier == expected.(
        srcAccessMask := WriteAccessesOf(prev[..i]),
        dstAccessMask := {},
        oldLayout := OldLayoutAfter(barrier.prevLayout, barrier.discardContents, prev[..i], vkBarrierIn.oldLayout),
        newLayout := vkBarrierIn.newLayout)
    {
      var prevAccess := prev[i];
      var prevAccessInfo := Info(prevAccess);
      assert prev[..i + 1][..i] == prev[..i];
      srcStages := srcStages + prevAccessInfo.stageMask;
      if Ordinal(prevAccess) > Ordinal(Present) {
        vkBarrier := vkBarrier.(srcAccessMask := vkBarrier.srcAccessMask + prevAccessInfo.accessMask);
      }
      if barrier.discardContents {
        vkBarrier := vkBarrier.(oldLayout := LayoutUndefined);
      } else {
        var layout := ResolveLayout(barrier.prevLayout, prevAccess);
        vkBarrier := vkBarrier.(oldLayout := layout);
      }
    }
    assert prev[..|prev|] == prev;

    var next := barrier.nextAccesses;
    for i := 0 to |next|
      invariant dstStages == dstStagesIn + StagesOf(next[..i])
      invariant vkBarrier == expected.(
        dstAccessMask := AccessesOf(next[..i]),
        newLayout := NewLayoutAfter(barrier.nextLayout, next[..i], vkBarrierIn.newLayout))
    {
      var nextAccess := next[i];
      var nextAccessInfo := Info(nextAccess);
      assert next[..i + 1][..i] == next[..i];
      dstStages := dstStages + nextAccessInfo.stageMask;
      vkBarrier := vkBarrier.(dstAccessMask := vkBarrier.dstAccessMask + nextAccessInfo.accessMask);
      var layout := ResolveLayout(barrier.nextLayout, nextAccess);
      vkBarrier := vkBarrier.(newLayout := layout);
    }
    assert next[..|next|] == next;
  }
}
