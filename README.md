# Simpler Vulkan Synchronization: the translation core in Dafny

This project models the core of the single-header library
`thsvs_simpler_vulkan_synchronization.h`. The library describes a memory
dependency as two lists of *access types*: what a resource was used for
before the barrier, and what it is used for after. It translates those lists
into Vulkan pipeline-stage masks, access masks and image layouts. The model has
three parts.

- **The access-type table.** `ThsvsAccessType` is a closed enumeration of
  50 usages. `ThsvsAccessMap` gives each one a fixed row: a stage mask, an
  access mask and an implied image layout.
  - Modules: `AccessTypes` (datatype, enumerator values, the table as a total
    function `Info`) and `Vulkan` (named flags and structures).
  - A Vulkan flag set is a `set` of named bits: OR is union, 0 is the empty set.
- **The three translators** `thsvsGetVulkanMemoryBarrier`,
  `thsvsGetVulkanBufferMemoryBarrier` and `thsvsGetVulkanImageMemoryBarrier`.
  - Module `Barriers`. Each translator is a method with the same loops as the C
    code, proved equal to fold functions over the lists.
  - The caller-owned stage masks come in as parameters and go out with the
    list's stages ORed in.
  - For images, the method also receives the caller's structure, because an
    empty list leaves its layout untouched.
  - Module `BarrierProperties` proves what the folds mean: membership,
    independence from order and repeats, the layout policy, and the optional
    `THSVS_ERROR_CHECK_*` assertions as predicates.
- **The command wrappers** `thsvsCmdPipelineBarrier`, `thsvsCmdWaitEvents`,
  `thsvsCmdSetEvent` and `thsvsCmdResetEvent`.
  - Module `Commands`. Each wrapper returns the arguments it would hand to the
    Vulkan command: the stage masks, the optional global barrier, and freshly
    allocated arrays filled by a loop, one translated barrier per input.
  - `TranslateBarriers` is the shared body of the two batch wrappers as
    written. It takes the leftover contents of the uninitialised temporary
    arrays as parameters.
  - `CmdPipelineBarrier` and `CmdWaitEvents` are the corrected wrappers: they
    run `TranslateBarriers` on zero-filled temporaries (see "Findings").
    `CmdSetEvent` and `CmdResetEvent` follow the code as written.
- **The test program.** Module `Scenarios` states each expectation of
  `test/tests.c` against the model. Where an expectation disagrees with the
  header, it proves the header's value instead.

Where the code and the prose description of the library disagree, the model
follows the code:

- The source access mask skips every access declared up to and including
  PRESENT, that is every read, not only PRESENT (h:721).
- `discardContents` forces UNDEFINED only inside the previous-access loop. With
  an empty previous list, the caller's old layout stays (h:800-817).

The GENERAL row (h:693-696) spells its access bits
`VK_ACCESS_TYPE_MEMORY_READ_BIT`/`..._WRITE_BIT`, which are not Vulkan
identifiers. They are modelled as MEMORY_READ and MEMORY_WRITE, which is what
`test/tests.c:350-356` expects. `vulkan.h` is not part of this model: its
flags, layouts and structure types appear by name only.

## Model

| member | source | states |
|---|---|---|
| AccessTypes.Info | thsvs_simpler_vulkan_synchronization.h:479-697 | the body is ThsvsAccessMap itself, one match case per row; it has no ensures, and the AccessTypes row lemmas below state its rows |
| AccessTypes.IsWrite | thsvs_simpler_vulkan_synchronization.h:721 | the test `access > THSVS_ACCESS_PRESENT` used at h:721, 766 and 811; it has no ensures, and WritesAreTheEnumeratorsAfterPresent lists the accesses it accepts |
| AccessTypes.Ordinal | thsvs_simpler_vulkan_synchronization.h:161-228 | every access type has an enumerator value below THSVS_NUM_ACCESS_TYPES (50) |
| AccessTypes.OrdinalThenFromOrdinal | thsvs_simpler_vulkan_synchronization.h:161-228 | mapping an access type to its enumerator value and back gives the same access type |
| AccessTypes.FromOrdinalThenOrdinal | thsvs_simpler_vulkan_synchronization.h:161-228 | every value below 50 names the access type with exactly that value |
| AccessTypes.OrdinalIsInjective | thsvs_simpler_vulkan_synchronization.h:479-480 | distinct access types have distinct enumerator values, so they index distinct rows of ThsvsAccessMap |
| AccessTypes.WritesAreTheEnumeratorsAfterPresent | thsvs_simpler_vulkan_synchronization.h:199-224 | the test `access > THSVS_ACCESS_PRESENT` holds exactly for the 16 enumerators declared after PRESENT, COLOR_ATTACHMENT_READ_WRITE and GENERAL included |
| AccessTypes.NoneAndPresentRows | thsvs_simpler_vulkan_synchronization.h:480-483 | NONE's row is (no stages, no accesses, UNDEFINED) and PRESENT's is (TOP_OF_PIPE, no accesses, PRESENT_SRC_KHR) |
| AccessTypes.GeneralRow | thsvs_simpler_vulkan_synchronization.h:693-696 | GENERAL's row is (ALL_COMMANDS, MEMORY_READ and MEMORY_WRITE, GENERAL) |
| AccessTypes.MixedDepthStencilRows | thsvs_simpler_vulkan_synchronization.h:661-668 | the two partial depth/stencil writes carry both depth/stencil read and write bits, the fragment-test stages, and their own KHR layouts |
| AccessTypes.ColorAttachmentReadWriteRow | thsvs_simpler_vulkan_synchronization.h:689-692 | COLOR_ATTACHMENT_READ_WRITE carries both colour-attachment bits at COLOR_ATTACHMENT_OUTPUT with COLOR_ATTACHMENT_OPTIMAL |
| AccessTypes.OnlyNoneAndPresentCarryNoAccessBits | thsvs_simpler_vulkan_synchronization.h:479-697 | a row has an empty access mask if and only if it is NONE's or PRESENT's |
| AccessTypes.BufferOnlyRowsHaveNoLayout | thsvs_simpler_vulkan_synchronization.h:486-506 | the buffer-only rows (command buffer, indirect, index, vertex, uniform buffers) imply layout UNDEFINED |
| AccessTypes.SampledImageRows | thsvs_simpler_vulkan_synchronization.h:507-612 | every *_READ_SAMPLED_IMAGE_OR_UNIFORM_TEXEL_BUFFER row has access SHADER_READ and layout SHADER_READ_ONLY_OPTIMAL |
| AccessTypes.StorageReadRows | thsvs_simpler_vulkan_synchronization.h:511-612 | every *_READ_OTHER row has access SHADER_READ and layout GENERAL |
| AccessTypes.ShaderWriteRows | thsvs_simpler_vulkan_synchronization.h:633-678 | every shader-write row has access SHADER_WRITE and layout GENERAL |
| AccessTypes.HostRows | thsvs_simpler_vulkan_synchronization.h:618-687 | HOST_READ and HOST_WRITE wait on HOST and use the GENERAL layout |
| AccessTypes.TransferRows | thsvs_simpler_vulkan_synchronization.h:614-683 | TRANSFER_READ and TRANSFER_WRITE map to TRANSFER_SRC_OPTIMAL and TRANSFER_DST_OPTIMAL |
| AccessTypes.AnyShaderRowsUseAllCommands | thsvs_simpler_vulkan_synchronization.h:597-612 | every ANY_SHADER_* row waits on ALL_COMMANDS |
| AccessTypes.AttachmentRows | thsvs_simpler_vulkan_synchronization.h:575-692 | colour-attachment rows use COLOR_ATTACHMENT_OUTPUT and COLOR_ATTACHMENT_OPTIMAL; the depth/stencil read and write rows are given in full |
| AccessTypes.StageSpecificShaderRows | thsvs_simpler_vulkan_synchronization.h:503-652 | each stage-specific shader access waits on exactly its own shader stage |
| Barriers.GetVulkanMemoryBarrier | thsvs_simpler_vulkan_synchronization.h:699-737 | the stage out-parameters end as their incoming value ORed with the lists' stages; the access masks are the previous writes' bits and all next bits |
| Barriers.GetVulkanBufferMemoryBarrier | thsvs_simpler_vulkan_synchronization.h:739-783 | as the global translator, with queue families, buffer, offset and size copied |
| Barriers.GetVulkanImageMemoryBarrier | thsvs_simpler_vulkan_synchronization.h:785-891 | as the buffer translator, plus old and new layouts chosen by policy, discard and last entry, and the caller's layouts kept for empty lists |
| Barriers.ResolveLayout | thsvs_simpler_vulkan_synchronization.h:822-836 | the policy switch, shared by both loops (also h:864-878); it has no ensures, and GeneralPolicyLayouts, GeneralPoliciesAvoidTransitions and OptimalPolicyUsesTable state its three cases |
| BarrierProperties.StagesOfMembers | thsvs_simpler_vulkan_synchronization.h:710-736 | a stage bit is in a list's stage mask if and only if some listed access's row carries it |
| BarrierProperties.AccessesOfMembers | thsvs_simpler_vulkan_synchronization.h:725-736 | an access bit is in the destination mask if and only if some next access's row carries it, with no filtering |
| BarrierProperties.WriteAccessesOfMembers | thsvs_simpler_vulkan_synchronization.h:710-723 | an access bit is in the source mask if and only if some previous access declared after PRESENT carries it |
| BarrierProperties.MasksDependOnlyOnListedAccesses | thsvs_simpler_vulkan_synchronization.h:710-736 | two lists naming the same access types give the same stage, access and write masks |
| BarrierProperties.MemoryBarrierIgnoresOrderAndRepeats | thsvs_simpler_vulkan_synchronization.h:699-737 | reordering or repeating entries changes neither the stages nor the VkMemoryBarrier |
| BarrierProperties.StagesOfAppend | thsvs_simpler_vulkan_synchronization.h:720 | folding two lists one after the other ORs their stage masks, so stages accumulate and are never cleared |
| BarrierProperties.ReadsMakeNothingAvailable | thsvs_simpler_vulkan_synchronization.h:721-722 | a previous list of reads, NONE and PRESENT included, yields source access mask 0 |
| BarrierProperties.SingleAccess | thsvs_simpler_vulkan_synchronization.h:710-736 | a one-entry list contributes its row's stages and accesses, and its accesses to the source mask only when it is a write |
| BarrierProperties.TwoAccesses | thsvs_simpler_vulkan_synchronization.h:725-736 | a two-entry list contributes the union of both rows |
| BarrierProperties.GeneralPolicyLayouts | thsvs_simpler_vulkan_synchronization.h:822-829 | under GENERAL, an access resolves to PRESENT_SRC_KHR if and only if it is PRESENT, and to GENERAL otherwise |
| BarrierProperties.GeneralPoliciesAvoidTransitions | thsvs_simpler_vulkan_synchronization.h:236-242 | GENERAL gives one layout to all non-presentation accesses; GENERAL_AND_PRESENTATION always gives SHARED_PRESENT_KHR |
| BarrierProperties.OptimalPolicyUsesTable | thsvs_simpler_vulkan_synchronization.h:830-832 | under OPTIMAL an access resolves to its table layout |
| BarrierProperties.OldLayoutChosen | thsvs_simpler_vulkan_synchronization.h:800-848 | the old layout is UNDEFINED after a discard with at least one entry, the caller's value for an empty list, and otherwise the last entry's resolution |
| BarrierProperties.NewLayoutChosen | thsvs_simpler_vulkan_synchronization.h:850-885 | the new layout is the caller's value for an empty list, and otherwise the last entry's resolution |
| BarrierProperties.DiscardNeedsAPreviousAccess | thsvs_simpler_vulkan_synchronization.h:800-817 | with discard set and a defined incoming layout, the old layout becomes UNDEFINED if and only if the previous list is non-empty |
| BarrierProperties.LayoutDependsOnOrder | thsvs_simpler_vulkan_synchronization.h:842 | unlike the masks, the layout depends on entry order: swapping two writes changes the old layout |
| BarrierProperties.ImageBarrierCopiesTheRest | thsvs_simpler_vulkan_synchronization.h:791-798 | sType and pNext are the image-barrier constants; queue families, image and subresource range are copied unmodified |
| BarrierProperties.MixedLayoutCheckPasses | thsvs_simpler_vulkan_synchronization.h:838-841 | the THSVS_ERROR_CHECK_MIXED_IMAGE_LAYOUT assertion along one loop (also h:880-883): before each access overwrites it, the stored layout is UNDEFINED or equal to the access's layout; it has no ensures, and the lemmas below state what passing it means |
| BarrierProperties.ImageLayoutChecksPass | thsvs_simpler_vulkan_synchronization.h:838-883 | the mixed-layout assertions over one image barrier, at h:838-841 for the previous list and h:880-883 for the next list: the previous loop only when not discarding, as the check sits in the non-discard branch; it has no ensures |
| BarrierProperties.PotentialHazardCheckPasses | thsvs_simpler_vulkan_synchronization.h:715-718 | the THSVS_ERROR_CHECK_POTENTIAL_HAZARD assertion (also h:730-733): every listed access is a read, or the list has one entry; it has no ensures, and HazardCheckedListsMakeAvailableOnlyALoneWrite states its consequence |
| BarrierProperties.MixedLayoutCheckMeansAgreement | thsvs_simpler_vulkan_synchronization.h:880-884 | if the mixed-layout assertions hold, every entry with a defined layout resolves to the final layout, and a defined stored layout is kept |
| BarrierProperties.AgreeingLayoutsPassMixedLayoutCheck | thsvs_simpler_vulkan_synchronization.h:838-842 | lists whose entries all resolve to one layout pass the mixed-layout assertions, when nothing or that layout was stored |
| BarrierProperties.MixedLayoutCheckTreatsUndefinedAsUnset | thsvs_simpler_vulkan_synchronization.h:838-842 | an entry resolving to UNDEFINED may precede another layout but may not follow one |
| BarrierProperties.MixedLayoutCheckRejectsSampleThenWrite | thsvs_simpler_vulkan_synchronization.h:838-842 | a sampled read followed by a storage write under OPTIMAL fails the mixed-layout assertion |
| BarrierProperties.HazardCheckedListsMakeAvailableOnlyALoneWrite | thsvs_simpler_vulkan_synchronization.h:715-723 | under the potential-hazard assertion, a previous list makes bits available only when it is one write, and then exactly that write's bits |
| Commands.BatchSourceStages | thsvs_simpler_vulkan_synchronization.h:904-939 | the batch's source stage mask holds TOP_OF_PIPE plus exactly the stages some barrier lists among its previous accesses |
| Commands.BatchDestinationStages | thsvs_simpler_vulkan_synchronization.h:905-939 | the batch's destination stage mask holds BOTTOM_OF_PIPE plus exactly the stages some barrier lists among its next accesses |
| Commands.TranslateBufferBarriers | thsvs_simpler_vulkan_synchronization.h:919-928 | the output array has one element per input, element i is the translation of input i, and the stage masks gain every buffer barrier's stages |
| Commands.TranslateImageBarriers | thsvs_simpler_vulkan_synchronization.h:930-939 | the same for image barriers; each translation starts from the array's prior contents |
| Commands.TranslateBarriers | thsvs_simpler_vulkan_synchronization.h:900-939 | as written: stages seeded with TOP_OF_PIPE and BOTTOM_OF_PIPE, memoryBarrierCount 1 exactly when a global barrier is given, and per-element translations whose image layouts fall back on that element's own leftover contents |
| Commands.EmptyPreviousListLeaksScratchLayout | thsvs_simpler_vulkan_synchronization.h:933-937 | an image barrier with an empty previous list gets whatever old layout the temporary memory held: two different leftovers give two different results |
| Commands.MixedLayoutCheckReadsScratchLayout | thsvs_simpler_vulkan_synchronization.h:838-841 | inside the wrappers the mixed-layout assertion also reads the leftover layout: one COLOR_ATTACHMENT write fails it over leftover TRANSFER_DST_OPTIMAL and passes over zeroed memory |
| Commands.CmdPipelineBarrier | thsvs_simpler_vulkan_synchronization.h:893-955 | corrected wrapper (zero-filled temporaries, see Findings): the vkCmdPipelineBarrier arguments are the seeded stage masks, dependency flags 0, the optional global barrier, arrays of per-input translations, and UNDEFINED layouts for empty lists; the C as written is Commands.TranslateBarriers with leftover scratch layouts |
| Commands.CmdWaitEvents | thsvs_simpler_vulkan_synchronization.h:1001-1067 | corrected wrapper (zero-filled temporaries, see Findings): the vkCmdWaitEvents arguments are the events passed through and the same batch as CmdPipelineBarrier (seeded stage masks, the optional global barrier, per-input translations, UNDEFINED layouts for empty lists); the C as written is Commands.TranslateBarriers with leftover scratch layouts |
| Commands.EventStageMask | thsvs_simpler_vulkan_synchronization.h:963-971 | the event stage mask is TOP_OF_PIPE ORed with every previous access's stages |
| Commands.CmdSetEvent | thsvs_simpler_vulkan_synchronization.h:957-977 | vkCmdSetEvent receives the command buffer, the event and that stage mask |
| Commands.CmdResetEvent | thsvs_simpler_vulkan_synchronization.h:979-999 | vkCmdResetEvent receives the command buffer, the event and that stage mask |
| Scenarios.GlobalTestPassesIffRows | test/tests.c:27-87 | a one-write, one-access global test passes if and only if the two table rows hold the expected stages and accesses |
| Scenarios.GlobalTestWithTwoNextAccessesPassesIffRows | test/tests.c:27-76 | a one-write, two-access global test passes if and only if the write's row and the union of the two next rows are as expected |
| Scenarios.ImageTestPassesIffRows | test/tests.c:89-165 | a one-write, one-access image test passes if and only if the two table rows, layouts included, are the expected ones |
| Scenarios.ComputeWriteThenComputeReadTest | test/tests.c:169-175 | compute write then compute storage read: COMPUTE_SHADER on both sides, SHADER_WRITE then SHADER_READ |
| Scenarios.ComputeWriteThenIndexReadTest | test/tests.c:185-191 | compute write then index read: VERTEX_INPUT and INDEX_READ |
| Scenarios.ComputeWriteThenIndexAndUniformReadTest | test/tests.c:193-203 | two next accesses: stages VERTEX_INPUT and COMPUTE_SHADER, accesses INDEX_READ and UNIFORM_READ |
| Scenarios.ComputeWriteThenIndirectReadTest | test/tests.c:205-211 | compute write then indirect read: DRAW_INDIRECT and INDIRECT_COMMAND_READ |
| Scenarios.ComputeWriteThenIndirectAndUniformReadTest | test/tests.c:222-232 | two next accesses: stages DRAW_INDIRECT and FRAGMENT_SHADER, accesses INDIRECT_COMMAND_READ and UNIFORM_READ |
| Scenarios.TransferWriteThenVertexReadTest | test/tests.c:322-328 | transfer write then vertex read: TRANSFER to VERTEX_INPUT, TRANSFER_WRITE to VERTEX_ATTRIBUTE_READ |
| Scenarios.FullPipelineBarrierTest | test/tests.c:350-356 | GENERAL on both sides: ALL_COMMANDS and MEMORY_READ and MEMORY_WRITE on both sides |
| Scenarios.ComputeWriteThenFragmentSampleTest | test/tests.c:213-221 | image: GENERAL to SHADER_READ_ONLY_OPTIMAL with the expected masks |
| Scenarios.ColorWriteThenComputeSampleTest | test/tests.c:234-242 | image: COLOR_ATTACHMENT_OPTIMAL to SHADER_READ_ONLY_OPTIMAL with the expected masks |
| Scenarios.DepthWriteThenComputeSampleTest | test/tests.c:244-252 | image: DEPTH_STENCIL_ATTACHMENT_OPTIMAL to SHADER_READ_ONLY_OPTIMAL, both fragment-test stages |
| Scenarios.DepthWriteThenFragmentSampleTest | test/tests.c:264-272 | image: depth write then fragment sampled read, as expected |
| Scenarios.ColorWriteThenColorInputAttachmentTest | test/tests.c:274-282 | image: colour write then colour input attachment: INPUT_ATTACHMENT_READ, SHADER_READ_ONLY_OPTIMAL |
| Scenarios.ColorWriteThenFragmentSampleTest | test/tests.c:284-292 | image: colour write then fragment sampled read, as expected |
| Scenarios.ColorWriteThenVertexSampleTest | test/tests.c:294-302 | image: colour write then vertex sampled read, as expected |
| Scenarios.TransferWriteThenFragmentSampleTest | test/tests.c:330-338 | image: TRANSFER_DST_OPTIMAL to SHADER_READ_ONLY_OPTIMAL with the expected masks |
| Scenarios.ReadThenComputeWriteTestContradictsTable | test/tests.c:177-183 | the header gives destination access SHADER_WRITE, where the test expects 0, so that test fails against this header |
| Scenarios.DepthInputAttachmentTestContradictsTable | test/tests.c:254-262 | the header gives DEPTH_STENCIL_ATTACHMENT_READ, where the test expects INPUT_ATTACHMENT_READ |
| Scenarios.ReadThenColorWriteTestContradictsTable | test/tests.c:304-312 | the header gives destination access COLOR_ATTACHMENT_WRITE, where the test expects 0 |
| Scenarios.NoneThenTransferReadTestContradictsTable | test/tests.c:314-320 | the header gives no source stage for NONE and destination access TRANSFER_READ, where the test expects TOP_OF_PIPE and 0 |
| Scenarios.PresentationTestContradictsTable | test/tests.c:340-348 | the header gives PRESENT the stage TOP_OF_PIPE, where the test expects BOTTOM_OF_PIPE |

## Left out

- The Vulkan commands themselves (`vkCmdPipelineBarrier`, `vkCmdWaitEvents`, `vkCmdSetEvent`, `vkCmdResetEvent`). They are foreign calls, so the wrappers return the argument record they would pass.
- `temp_alloc`/`temp_free`. They are memory plumbing. The temporary arrays are `new` Dafny arrays, and what uninitialised alloca memory holds is a parameter sequence (`bufferScratch`, `imageScratch`) with one leftover value per element.
- Bit values of Vulkan flags and the 32-bit width of flag words. `vulkan.h` is not part of this model, so each flag set is a set of named bits. No flag operation here can overflow.
- `THSVS_ERROR_CHECK_COULD_USE_GLOBAL_BARRIER` (h:845-847, 887-890). It applies `.` to `pVkBarrier`, which is not a structure, and does not compile; the first copy also sits inside the previous-access loop.
- The optional checks are not enforced in the translators. They are stated as predicates (`MixedLayoutCheckPasses`, `ImageLayoutChecksPass`, `PotentialHazardCheckPasses`) with lemmas about what passing them means. The model follows the default build, where `assert` does nothing.
- Out-of-range `ThsvsAccessType` and `ThsvsImageLayout` values. They would index past the table or leave `layout` uninitialised; closed datatypes rule them out.
- Aliasing between `pSrcStages` and `pDstStages`. The translators take and return the two masks separately; the C code could be handed the same address for both.
- NULL array arguments for empty lists, and `uint32_t` counts. Lists are sequences, with no bound on their length.
- `VkBool32 discardContents` is a `bool`. The code compares with `VK_TRUE`, so any non-zero value other than 1 would act as false there; the model does not represent such values.
- The test program's printing and `main`. `Scenarios` keeps only the expectations.

## Findings

| source | as written | input that shows it | evidently intended | confidence | as-written member | corrected member |
|---|---|---|---|---|---|---|
| thsvs_simpler_vulkan_synchronization.h:933-937 | thsvsCmdPipelineBarrier and thsvsCmdWaitEvents (also h:1045-1049) fill a `temp_alloc` (alloca) array in place. The image translator writes `oldLayout`/`newLayout` only inside its loops, so an image barrier with an empty previous or next list hands Vulkan uninitialised stack memory as that layout | an image barrier with `prevAccessCount == 0`, e.g. the first use of a fresh image: the old layout is whatever the stack held: leftover GENERAL gives GENERAL, leftover TRANSFER_DST_OPTIMAL gives TRANSFER_DST_OPTIMAL. With THSVS_ERROR_CHECK_MIXED_IMAGE_LAYOUT defined, the leftover also decides the assertion at h:839-840: a single COLOR_ATTACHMENT_WRITE fails it over leftover TRANSFER_DST_OPTIMAL (Commands.MixedLayoutCheckReadsScratchLayout) | the element starts zeroed, so an empty list yields UNDEFINED, as in test/tests.c:101-107, which zero-initialises the structure before translating | medium, not executed | Commands.EmptyPreviousListLeaksScratchLayout | Commands.CmdPipelineBarrier |
| thsvs_simpler_vulkan_synchronization.h:1045-1049 | thsvsCmdWaitEvents fills its `temp_alloc` image array the same way, so an empty previous or next list hands vkCmdWaitEvents uninitialised stack memory as that layout | an image barrier with `prevAccessCount == 0` passed to thsvsCmdWaitEvents: its old layout is whatever the stack held | the element starts zeroed, so an empty list yields UNDEFINED | medium, not executed | Commands.EmptyPreviousListLeaksScratchLayout | Commands.CmdWaitEvents |
