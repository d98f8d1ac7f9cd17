/**
 * The command wrappers thsvsCmdPipelineBarrier, thsvsCmdWaitEvents,
 * thsvsCmdSetEvent and thsvsCmdResetEvent, up to the Vulkan call: what they
 * hand to vkCmd* is the result here.
 */
module Commands {

  import opened Wrappers
  import opened Vulkan
  import opened AccessTypes
  import opened Barriers
  import opened BarrierProperties

  /** The barrier arguments both vkCmdPipelineBarrier and vkCmdWaitEvents receive. */
  datatype BarrierBatch = BarrierBatch(
    srcStageMask: StageMask,
    dstStageMask: StageMask,
    memoryBarrierCount: nat,
    memoryBarrier: Option<MemoryBarrier>,
    bufferMemoryBarriers: array<BufferMemoryBarrier>,
    imageMemoryBarriers: array<ImageMemoryBarrier>)

  /** The arguments of vkCmdPipelineBarrier. */
  datatype PipelineBarrierCall = PipelineBarrierCall(commandBuffer: CommandBuffer, dependencyFlags: u32, batch: BarrierBatch)

  /** The arguments of vkCmdWaitEvents. */
  datatype WaitEventsCall = WaitEventsCall(commandBuffer: CommandBuffer, events: seq<Event>, batch: BarrierBatch)

  /** The arguments of vkCmdSetEvent or vkCmdResetEvent. */
  datatype EventCall =
    | SetEventCall(commandBuffer: CommandBuffer, event: Event, stageMask: StageMask)
    | ResetEventCall(commandBuffer: CommandBuffer, event: Event, stageMask: StageMask)

  // ---- Specification of the aggregation -------------------------------------

  /** The previous accesses of the buffer barriers, one list after the other. */
  function BufferPrevAccesses(bs: seq<BufferBarrier>): seq<AccessType> {
    if |bs| == 0 then [] else BufferPrevAccesses(bs[..|bs| - 1]) + bs[|bs| - 1].prevAccesses
  }

  /** The next accesses of the buffer barriers, one list after the other. */
  function BufferNextAccesses(bs: seq<BufferBarrier>): seq<AccessType> {
    if |bs| == 0 then [] else BufferNextAccesses(bs[..|bs| - 1]) + bs[|bs| - 1].nextAccesses
  }

  /** The previous accesses of the image barriers, one list after the other. */
  function ImagePrevAccesses(ims: seq<ImageBarrier>): seq<AccessType> {
    if |ims| == 0 then [] else ImagePrevAccesses(ims[..|ims| - 1]) + ims[|ims| - 1].prevAccesses
  }

  /** The next accesses of the image barriers, one list after the other. */
  function ImageNextAccesses(ims: seq<ImageBarrier>): seq<AccessType> {
    if |ims| == 0 then [] else ImageNextAccesses(ims[..|ims| - 1]) + ims[|ims| - 1].nextAccesses
  }

  /** Every previous access of every barrier of a batch. */
  function AllPrevAccesses(global: Option<GlobalBarrier>, bs: seq<BufferBarrier>, ims: seq<ImageBarrier>): seq<AccessType> {
    (if global.Some? then global.value.prevAccesses else []) + BufferPrevAccesses(bs) + ImagePrevAccesses(ims)
  }

  /** Every next access of every barrier of a batch. */
  function AllNextAccesses(global: Option<GlobalBarrier>, bs: seq<BufferBarrier>, ims: seq<ImageBarrier>): seq<AccessType> {
    (if global.Some? then global.value.nextAccesses else []) + BufferNextAccesses(bs) + ImageNextAccesses(ims)
  }

  /** The stages of the buffer barriers' previous accesses are the union of each barrier's. */
  lemma {:induction false} BufferPrevStages(bs: seq<BufferBarrier>)
    ensures StagesOf(BufferPrevAccesses(bs)) == UnionOf(bs, (b: BufferBarrier) => StagesOf(b.prevAccesses))
    decreases |bs|
  {
    if |bs| > 0 {
      BufferPrevStages(bs[..|bs| - 1]);
      StagesOfAppend(BufferPrevAccesses(bs[..|bs| - 1]), bs[|bs| - 1].prevAccesses);
    }
  }

  /** The stages of the buffer barriers' next accesses are the union of each barrier's. */
  lemma {:induction false} BufferNextStages(bs: seq<BufferBarrier>)
    ensures StagesOf(BufferNextAccesses(bs)) == UnionOf(bs, (b: BufferBarrier) => StagesOf(b.nextAccesses))
    decreases |bs|
  {
    if |bs| > 0 {
      BufferNextStages(bs[..|bs| - 1]);
      StagesOfAppend(BufferNextAccesses(bs[..|bs| - 1]), bs[|bs| - 1].nextAccesses);
    }
  }

  /** The stages of the image barriers' previous accesses are the union of each barrier's. */
  lemma {:induction false} ImagePrevStages(ims: seq<ImageBarrier>)
    ensures StagesOf(ImagePrevAccesses(ims)) == UnionOf(ims, (b: ImageBarrier) => StagesOf(b.prevAccesses))
    decreases |ims|
  {
    if |ims| > 0 {
      ImagePrevStages(ims[..|ims| - 1]);
      StagesOfAppend(ImagePrevAccesses(ims[..|ims| - 1]), ims[|ims| - 1].prevAccesses);
    }
  }

  /** The stages of the image barriers' next accesses are the union of each barrier's. */
  lemma {:induction false} ImageNextStages(ims: seq<ImageBarrier>)
    ensures StagesOf(ImageNextAccesses(ims)) == UnionOf(ims, (b: ImageBarrier) => StagesOf(b.nextAccesses))
    decreases |ims|
  {
    if |ims| > 0 {
      ImageNextStages(ims[..|ims| - 1]);
      StagesOfAppend(ImageNextAccesses(ims[..|ims| - 1]), ims[|ims| - 1].nextAccesses);
    }
  }

  /**
   * The source stage mask of a batch holds TOP_OF_PIPE and, besides it,
   * exactly the stages some barrier of the batch lists among its previous
   * accesses.
   */
  lemma BatchSourceStages(global: Option<GlobalBarrier>, bs: seq<BufferBarrier>, ims: seq<ImageBarrier>,
                          stage: PipelineStage)
    ensures stage in {TopOfPipeBit} + StagesOf(AllPrevAccesses(global, bs, ims)) <==>
      || stage == TopOfPipeBit
      || (global.Some? && stage in StagesOf(global.value.prevAccesses))
      || (exists k :: 0 <= k < |bs| && stage in StagesOf(bs[k].prevAccesses))
      || (exists k :: 0 <= k < |ims| && stage in StagesOf(ims[k].prevAccesses))
  {
    var g := if global.Some? then global.value.prevAccesses else [];
    StagesOfAppend(g, BufferPrevAccesses(bs));
    StagesOfAppend(g + BufferPrevAccesses(bs), ImagePrevAccesses(ims));
    BufferPrevStages(bs);
    ImagePrevStages(ims);
    UnionOfMembers(bs, (b: BufferBarrier) => StagesOf(b.prevAccesses), stage);
    UnionOfMembers(ims, (b: ImageBarrier) => StagesOf(b.prevAccesses), stage);
  }

  /**
   * The destination stage mask of a batch holds BOTTOM_OF_PIPE and, besides
   * it, exactly the stages some barrier of the batch lists among its next
   * accesses.
   */
  lemma BatchDestinationStages(global: Option<GlobalBarrier>, bs: seq<BufferBarrier>, ims: seq<ImageBarrier>,
                               stage: PipelineStage)
    ensures stage in {BottomOfPipeBit} + StagesOf(AllNextAccesses(global, bs, ims)) <==>
      || stage == BottomOfPipeBit
      || (global.Some? && stage in StagesOf(global.value.nextAccesses))
      || (exists k :: 0 <= k < |bs| && stage in StagesOf(bs[k].nextAccesses))
      || (exists k :: 0 <= k < |ims| && stage in StagesOf(ims[k].nextAccesses))
  {
    var g := if global.Some? then global.value.nextAccesses else [];
    StagesOfAppend(g, BufferNextAccesses(bs));
    StagesOfAppend(g + BufferNextAccesses(bs), ImageNextAccesses(ims));
    BufferNextStages(bs);
    ImageNextStages(ims);
    UnionOfMembers(bs, (b: BufferBarrier) => StagesOf(b.nextAccesses), stage);
    UnionOfMembers(ims, (b: ImageBarrier) => StagesOf(b.nextAccesses), stage);
  }

  // ---- The wrappers ---------------------------------------------------------

  /** One more buffer barrier adds exactly its own stages. */
  lemma BufferStagesStep(bs: seq<BufferBarrier>, i: nat)
    requires i < |bs|
    ensures StagesOf(BufferPrevAccesses(bs[..i + 1])) == StagesOf(BufferPrevAccesses(bs[..i])) + StagesOf(bs[i].prevAccesses)
    ensures StagesOf(BufferNextAccesses(bs[..i + 1])) == StagesOf(BufferNextAccesses(bs[..i])) + StagesOf(bs[i].nextAccesses)
  {
    assert bs[..i + 1][..i] == bs[..i];
    StagesOfAppend(BufferPrevAccesses(bs[..i]), bs[i].prevAccesses);
    StagesOfAppend(BufferNextAccesses(bs[..i]), bs[i].nextAccesses);
  }

  /** One more image barrier adds exactly its own stages. */
  lemma ImageStagesStep(ims: seq<ImageBarrier>, i: nat)
    requires i < |ims|
    ensures StagesOf(ImagePrevAccesses(ims[..i + 1])) == StagesOf(ImagePrevAccesses(ims[..i])) + StagesOf(ims[i].prevAccesses)
    ensures StagesOf(ImageNextAccesses(ims[..i + 1])) == StagesOf(ImageNextAccesses(ims[..i])) + StagesOf(ims[i].nextAccesses)
  {
    assert ims[..i + 1][..i] == ims[..i];
    StagesOfAppend(ImagePrevAccesses(ims[..i]), ims[i].prevAccesses);
    StagesOfAppend(ImageNextAccesses(ims[..i]), ims[i].nextAccesses);
  }

  /** Once the boundary reaches the end, the array holds exactly the results. */
  lemma SpliceDone<T>(current: seq<T>, done: seq<T>, untouched: seq<T>)
    requires |done| == |untouched|
    requires current == done[..|done|] + untouched[|done|..]
    ensures current == done
  {
  }

  /** ORing in the next part keeps a mask equal to the incoming bits plus everything seen so far. */
  lemma UnionStep<T>(incoming: set<T>, before: set<T>, after: set<T>, seen: set<T>, added: set<T>, seenNow: set<T>)
    requires before == incoming + seen && after == before + added && seenNow == seen + added
    ensures after == incoming + seenNow
  {
  }

  /** The array as the loop leaves it after `i` steps: the first `i` elements done, the rest untouched. */
  lemma SpliceUntouched<T>(current: seq<T>, done: seq<T>, untouched: seq<T>, i: nat)
    requires |done| == |untouched| && i < |done|
    requires current == done[..i] + untouched[i..]
    ensures current[i] == untouched[i]
  {
  }

  /** Storing the `i`-th result moves the boundary one element on. */
  lemma SpliceStep<T>(current: seq<T>, done: seq<T>, untouched: seq<T>, i: nat, v: T)
    requires |done| == |untouched| && i < |done|
    requires current == done[..i] + untouched[i..]
    requires v == done[i]
    ensures current[i := v] == done[..i + 1] + untouched[i + 1..]
  {
    assert current[i := v] == done[..i + 1] + untouched[i + 1..];
  }

  /** The buffer-barrier loop of thsvsCmdPipelineBarrier and thsvsCmdWaitEvents. */
  method TranslateBufferBarriers(bufferBarriers: seq<BufferBarrier>, srcStagesIn: StageMask, dstStagesIn: StageMask,
                                 scratch: seq<BufferMemoryBarrier>)
    returns (srcStages: StageMask, dstStages: StageMask, vkBarriers: array<BufferMemoryBarrier>)
    requires |scratch| == |bufferBarriers|
    ensures srcStages == srcStagesIn + StagesOf(BufferPrevAccesses(bufferBarriers))
    ensures dstStages == dstStagesIn + StagesOf(BufferNextAccesses(bufferBarriers))
    ensures fresh(vkBarriers) && vkBarriers.Length == |bufferBarriers|
    ensures forall i :: 0 <= i < |bufferBarriers| ==> vkBarriers[i] == BufferMemoryBarrierFor(bufferBarriers[i])
  {
    srcStages, dstStages := srcStagesIn, dstStagesIn;
    vkBarriers := new BufferMemoryBarrier[|bufferBarriers|](j requires 0 <= j < |scratch| => scratch[j]);
    ghost var expected := seq(|bufferBarriers|, j requires 0 <= j < |bufferBarriers| => BufferMemoryBarrierFor(bufferBarriers[j]));
    ghost var untouched := scratch;
    assert vkBarriers[..] == untouched;
    for i := 0 to |bufferBarriers|
      invariant srcStages == srcStagesIn + StagesOf(BufferPrevAccesses(bufferBarriers[..i]))
      invariant dstStages == dstStagesIn + StagesOf(BufferNextAccesses(bufferBarriers[..i]))
      invariant vkBarriers[..] == expected[..i] + untouched[i..]
    {
      var vk;
      ghost var srcBefore, dstBefore := srcStages, dstStages;
      BufferStagesStep(bufferBarriers, i);
      srcStages, dstStages, vk := GetVulkanBufferMemoryBarrier(bufferBarriers[i], srcStages, dstStages);
      SpliceStep(vkBarriers[..], expected, untouched, i, vk);
      vkBarriers[i] := vk;
      UnionStep(srcStagesIn, srcBefore, srcStages, StagesOf(BufferPrevAccesses(bufferBarriers[..i])), StagesOf(bufferBarriers[i].prevAccesses),
                StagesOf(BufferPrevAccesses(bufferBarriers[..i + 1])));
      UnionStep(dstStagesIn, dstBefore, dstStages, StagesOf(BufferNextAccesses(bufferBarriers[..i])), StagesOf(bufferBarriers[i].nextAccesses),
                StagesOf(BufferNextAccesses(bufferBarriers[..i + 1])));
    }
    assert bufferBarriers[..|bufferBarriers|] == bufferBarriers;
    SpliceDone(vkBarriers[..], expected, untouched);
    forall i | 0 <= i < |bufferBarriers| ensures vkBarriers[i] == BufferMemoryBarrierFor(bufferBarriers[i]) {
      assert vkBarriers[i] == vkBarriers[..][i];
    }
  }

  /**
   * The image-barrier loop of thsvsCmdPipelineBarrier and thsvsCmdWaitEvents.
   * Element i starts as `scratch[i]` and is passed to the translator in place,
   * so a layout the translator leaves alone is whatever `scratch[i]` held.
   */
  method TranslateImageBarriers(imageBarriers: seq<ImageBarrier>, srcStagesIn: StageMask, dstStagesIn: StageMask,
                                scratch: seq<ImageMemoryBarrier>)
    returns (srcStages: StageMask, dstStages: StageMask, vkBarriers: array<ImageMemoryBarrier>)
    requires |scratch| == |imageBarriers|
    ensures srcStages == srcStagesIn + StagesOf(ImagePrevAccesses(imageBarriers))
    ensures dstStages == dstStagesIn + StagesOf(ImageNextAccesses(imageBarriers))
    ensures fresh(vkBarriers) && vkBarriers.Length == |imageBarriers|
    ensures forall i :: 0 <= i < |imageBarriers| ==>
      vkBarriers[i] == ImageMemoryBarrierFor(imageBarriers[i], scratch[i].oldLayout, scratch[i].newLayout)
  {
    srcStages, dstStages := srcStagesIn, dstStagesIn;
    vkBarriers := new ImageMemoryBarrier[|imageBarriers|](j requires 0 <= j < |scratch| => scratch[j]);
    ghost var expected := seq(|imageBarriers|, j requires 0 <= j < |imageBarriers| =>
      ImageMemoryBarrierFor(imageBarriers[j], scratch[j].oldLayout, scratch[j].newLayout));
    ghost var untouched := scratch;
    assert vkBarriers[..] == untouched;
    for i := 0 to |imageBarriers|
      invariant srcStages == srcStagesIn + StagesOf(ImagePrevAccesses(imageBarriers[..i]))
      invariant dstStages == dstStagesIn + StagesOf(ImageNextAccesses(imageBarriers[..i]))
      invariant vkBarriers[..] == expected[..i] + untouched[i..]
    {
      SpliceUntouched(vkBarriers[..], expected, untouched, i);
      var current := vkBarriers[i];
      assert current == scratch[i];
      var vk;
      ghost var srcBefore, dstBefore := srcStages, dstStages;
      ImageStagesStep(imageBarriers, i);
      srcStages, dstStages, vk := GetVulkanImageMemoryBarrier(imageBarriers[i], srcStages, dstStages, current);
      SpliceStep(vkBarriers[..], expected, untouched, i, vk);
      vkBarriers[i] := vk;
      UnionStep(srcStagesIn, srcBefore, srcStages, StagesOf(ImagePrevAccesses(imageBarriers[..i])), StagesOf(imageBarriers[i].prevAccesses),
                StagesOf(ImagePrevAccesses(imageBarriers[..i + 1])));
      UnionStep(dstStagesIn, dstBefore, dstStages, StagesOf(ImageNextAccesses(imageBarriers[..i])), StagesOf(imageBarriers[i].nextAccesses),
                StagesOf(ImageNextAccesses(imageBarriers[..i + 1])));
    }
    assert imageBarriers[..|imageBarriers|] == imageBarriers;
    SpliceDone(vkBarriers[..], expected, untouched);
    forall i | 0 <= i < |imageBarriers|
      ensures vkBarriers[i] == ImageMemoryBarrierFor(imageBarriers[i], scratch[i].oldLayout, scratch[i].newLayout)
    {
      assert vkBarriers[i] == vkBarriers[..][i];
    }
  }

  /**
   * The translation shared by thsvsCmdPipelineBarrier and thsvsCmdWaitEvents,
   * as written: the stage masks are seeded with TOP_OF_PIPE/BOTTOM_OF_PIPE,
   * each barrier is translated into a temporary array, and all their stages
   * are ORed together. The temporary arrays come from alloca and are not
   * initialised; `bufferScratch[i]` and `imageScratch[i]` stand for whatever
   * element i held, which the image translation reads back for an empty list.
   */
  method TranslateBarriers(global: Option<GlobalBarrier>, bufferBarriers: seq<BufferBarrier>,
                           imageBarriers: seq<ImageBarrier>,
                           bufferScratch: seq<BufferMemoryBarrier>, imageScratch: seq<ImageMemoryBarrier>)
    returns (batch: BarrierBatch)
    requires |bufferScratch| == |bufferBarriers| && |imageScratch| == |imageBarriers|
    ensures batch.srcStageMask == {TopOfPipeBit} + StagesOf(AllPrevAccesses(global, bufferBarriers, imageBarriers))
    ensures batch.dstStageMask == {BottomOfPipeBit} + StagesOf(AllNextAccesses(global, bufferBarriers, imageBarriers))
    ensures batch.memoryBarrierCount == (if global.Some? then 1 else 0)
    ensures batch.memoryBarrier == if global.Some? then Some(MemoryBarrierFor(global.value)) else None
    ensures fresh(batch.bufferMemoryBarriers) && fresh(batch.imageMemoryBarriers)
    ensures batch.bufferMemoryBarriers.Length == |bufferBarriers|
    ensures forall i :: 0 <= i < |bufferBarriers| ==>
      batch.bufferMemoryBarriers[i] == BufferMemoryBarrierFor(bufferBarriers[i])
    ensures batch.imageMemoryBarriers.Length == |imageBarriers|
    ensures forall i :: 0 <= i < |imageBarriers| ==>
      batch.imageMemoryBarriers[i] == ImageMemoryBarrierFor(imageBarriers[i], imageScratch[i].oldLayout, imageScratch[i].newLayout)
  {
    var srcStageMask: StageMask := {TopOfPipeBit};
    var dstStageMask: StageMask := {BottomOfPipeBit};
    var memoryBarrierCount: nat := if global.Some? then 1 else 0;
    var memoryBarrier: Option<MemoryBarrier> := None;
    if global.Some? {
      var vk;
      srcStageMask, dstStageMask, vk := GetVulkanMemoryBarrier(global.value, srcStageMask, dstStageMask);
      memoryBarrier := Some(vk);
    }
    ghost var globalPrev := if global.Some? then global.value.prevAccesses else [];
    ghost var globalNext := if global.Some? then global.value.nextAccesses else [];
    assert srcStageMask == {TopOfPipeBit} + StagesOf(globalPrev);
    assert dstStageMask == {BottomOfPipeBit} + StagesOf(globalNext);

    var buffers, images;
    srcStageMask, dstStageMask, buffers := TranslateBufferBarriers(bufferBarriers, srcStageMask, dstStageMask, bufferScratch);
    srcStageMask, dstStageMask, images := TranslateImageBarriers(imageBarriers, srcStageMask, dstStageMask, imageScratch);

    assert srcStageMask == {TopOfPipeBit} + StagesOf(AllPrevAccesses(global, bufferBarriers, imageBarriers)) by {
      StagesOfAppend(globalPrev, BufferPrevAccesses(bufferBarriers));
      StagesOfAppend(globalPrev + BufferPrevAccesses(bufferBarriers), ImagePrevAccesses(imageBarriers));
    }
    assert dstStageMask == {BottomOfPipeBit} + StagesOf(AllNextAccesses(global, bufferBarriers, imageBarriers)) by {
      StagesOfAppend(globalNext, BufferNextAccesses(bufferBarriers));
      StagesOfAppend(globalNext + BufferNextAccesses(bufferBarriers), ImageNextAccesses(imageBarriers));
    }
    batch := BarrierBatch(srcStageMask, dstStageMask, memoryBarrierCount, memoryBarrier, buffers, images);
  }

  /**
   * With the temporary arrays as alloca leaves them, an image barrier with
   * no previous access hands Vulkan whatever old layout the memory held.
   */
  lemma EmptyPreviousListLeaksScratchLayout()
    ensures var b := ImageBarrier([], [FragmentShaderReadSampledImageOrUniformTexelBuffer], OptimalPolicy,
                                  OptimalPolicy, false, 0, 0, Image(0), ImageSubresourceRange(0, 0, 0, 0, 0));
      ImageMemoryBarrierFor(b, LayoutGeneral, LayoutUndefined).oldLayout == LayoutGeneral &&
      ImageMemoryBarrierFor(b, LayoutTransferDstOptimal, LayoutUndefined).oldLayout == LayoutTransferDstOptimal
  {
  }

  /**
   * THSVS_ERROR_CHECK_MIXED_IMAGE_LAYOUT compares each access's layout with
   * the one already in the structure, so inside the wrappers it reads the
   * leftover memory too: a single colour-attachment write fails the check
   * when TRANSFER_DST_OPTIMAL was left behind, and passes on zeroed memory.
   */
  lemma MixedLayoutCheckReadsScratchLayout()
    ensures !MixedLayoutCheckPasses(OptimalPolicy, [ColorAttachmentWrite], LayoutTransferDstOptimal)
    ensures MixedLayoutCheckPasses(OptimalPolicy, [ColorAttachmentWrite], ZeroedImageMemoryBarrier.oldLayout)
  {
  }

  /** Zero-filled temporary memory: both layouts UNDEFINED (sType is overwritten anyway). */
  const ZeroedBufferMemoryBarrier: BufferMemoryBarrier :=
    BufferMemoryBarrier(StructureTypeBufferMemoryBarrier, NULL, {}, {}, 0, 0, Buffer(0), 0, 0)
  const ZeroedImageMemoryBarrier: ImageMemoryBarrier :=
    ImageMemoryBarrier(StructureTypeImageMemoryBarrier, NULL, {}, {}, LayoutUndefined, LayoutUndefined,
                       0, 0, Image(0), ImageSubresourceRange(0, 0, 0, 0, 0))

  /**
   * thsvsCmdPipelineBarrier, with its temporary arrays zero-filled: every
   * output barrier is the translation of its input, and an empty list
   * yields UNDEFINED rather than leftover memory.
   */
  method CmdPipelineBarrier(commandBuffer: CommandBuffer, global: Option<GlobalBarrier>,
                            bufferBarriers: seq<BufferBarrier>, imageBarriers: seq<ImageBarrier>)
    returns (call: PipelineBarrierCall)
    ensures call.commandBuffer == commandBuffer && call.dependencyFlags == 0
    ensures call.batch.srcStageMask == {TopOfPipeBit} + StagesOf(AllPrevAccesses(global, bufferBarriers, imageBarriers))
    ensures call.batch.dstStageMask == {BottomOfPipeBit} + StagesOf(AllNextAccesses(global, bufferBarriers, imageBarriers))
    ensures call.batch.memoryBarrierCount == (if global.Some? then 1 else 0)
    ensures call.batch.memoryBarrier == if global.Some? then Some(MemoryBarrierFor(global.value)) else None
    ensures fresh(call.batch.bufferMemoryBarriers) && fresh(call.batch.imageMemoryBarriers)
    ensures call.batch.bufferMemoryBarriers.Length == |bufferBarriers|
    ensures forall i :: 0 <= i < |bufferBarriers| ==>
      call.batch.bufferMemoryBarriers[i] == BufferMemoryBarrierFor(bufferBarriers[i])
    ensures call.batch.imageMemoryBarriers.Length == |imageBarriers|
    ensures forall i :: 0 <= i < |imageBarriers| ==>
      call.batch.imageMemoryBarriers[i] == ImageMemoryBarrierFor(imageBarriers[i], LayoutUndefined, LayoutUndefined)
    ensures forall i :: 0 <= i < |imageBarriers| && |imageBarriers[i].prevAccesses| == 0 ==>
      call.batch.imageMemoryBarriers[i].oldLayout == LayoutUndefined
    ensures forall i :: 0 <= i < |imageBarriers| && |imageBarriers[i].nextAccesses| == 0 ==>
      call.batch.imageMemoryBarriers[i].newLayout == LayoutUndefined
  {
    var batch := TranslateBarriers(global, bufferBarriers, imageBarriers,
                                   seq(|bufferBarriers|, _ => ZeroedBufferMemoryBarrier),
                                   seq(|imageBarriers|, _ => ZeroedImageMemoryBarrier));
    call := PipelineBarrierCall(commandBuffer, 0, batch);
  }

  /** thsvsCmdWaitEvents: the same translation, with the events passed through. */
  method CmdWaitEvents(commandBuffer: CommandBuffer, events: seq<Event>, global: Option<GlobalBarrier>,
                       bufferBarriers: seq<BufferBarrier>, imageBarriers: seq<ImageBarrier>)
    returns (call: WaitEventsCall)
    ensures call.commandBuffer == commandBuffer && call.events == events
    ensures call.batch.srcStageMask == {TopOfPipeBit} + StagesOf(AllPrevAccesses(global, bufferBarriers, imageBarriers))
    ensures call.batch.dstStageMask == {BottomOfPipeBit} + StagesOf(AllNextAccesses(global, bufferBarriers, imageBarriers))
    ensures call.batch.memoryBarrierCount == (if global.Some? then 1 else 0)
    ensures call.batch.memoryBarrier == if global.Some? then Some(MemoryBarrierFor(global.value)) else None
    ensures fresh(call.batch.bufferMemoryBarriers) && fresh(call.batch.imageMemoryBarriers)
    ensures call.batch.bufferMemoryBarriers.Length == |bufferBarriers|
    ensures forall i :: 0 <= i < |bufferBarriers| ==>
      call.batch.bufferMemoryBarriers[i] == BufferMemoryBarrierFor(bufferBarriers[i])
    ensures call.batch.imageMemoryBarriers.Length == |imageBarriers|
    ensures forall i :: 0 <= i < |imageBarriers| ==>
      call.batch.imageMemoryBarriers[i] == ImageMemoryBarrierFor(imageBarriers[i], LayoutUndefined, LayoutUndefined)
    ensures forall i :: 0 <= i < |imageBarriers| && |imageBarriers[i].prevAccesses| == 0 ==>
      call.batch.imageMemoryBarriers[i].oldLayout == LayoutUndefined
    ensures forall i :: 0 <= i < |imageBarriers| && |imageBarriers[i].nextAccesses| == 0 ==>
      call.batch.imageMemoryBarriers[i].newLayout == LayoutUndefined
  {
    var batch := TranslateBarriers(global, bufferBarriers, imageBarriers,
                                   seq(|bufferBarriers|, _ => ZeroedBufferMemoryBarrier),
                                   seq(|imageBarriers|, _ => ZeroedImageMemoryBarrier));
    call := WaitEventsCall(commandBuffer, events, batch);
  }

  /** The stage mask thsvsCmdSetEvent and thsvsCmdResetEvent compute: TOP_OF_PIPE ORed with every previous access's stages. */
  method EventStageMask(prevAccesses: seq<AccessType>) returns (stageMask: StageMask)
    ensures stageMask == {TopOfPipeBit} + StagesOf(prevAccesses)
  {
    stageMask := {TopOfPipeBit};
    for i := 0 to |prevAccesses|
      invariant stageMask == {TopOfPipeBit} + StagesOf(prevAccesses[..i])
    {
      assert prevAccesses[..i + 1][..i] == prevAccesses[..i];
      stageMask := stageMask + Info(prevAccesses[i]).stageMask;
    }
    assert prevAccesses[..|prevAccesses|] == prevAccesses;
  }

  /** thsvsCmdSetEvent. */
  method CmdSetEvent(commandBuffer: CommandBuffer, event: Event, prevAccesses: seq<AccessType>)
    returns (call: EventCall)
    ensures call == SetEventCall(commandBuffer, event, {TopOfPipeBit} + StagesOf(prevAccesses))
  {
    var stageMask := EventStageMask(prevAccesses);
    call := SetEventCall(commandBuffer, event, stageMask);
  }

  /** thsvsCmdResetEvent. */
  method CmdResetEvent(commandBuffer: CommandBuffer, event: Event, prevAccesses: seq<AccessType>)
    returns (call: EventCall)
    ensures call == ResetEventCall(commandBuffer, event, {TopOfPipeBit} + StagesOf(prevAccesses))
  {
    var stageMask := EventStageMask(prevAccesses);
    call := ResetEventCall(commandBuffer, event, stageMask);
  }
}
