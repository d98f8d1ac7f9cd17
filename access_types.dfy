/**
 * ThsvsAccessType and the table ThsvsAccessMap that gives every access type
 * its pipeline stages, memory-access bits and implied image layout.
 */
module AccessTypes {

  import opened Vulkan

  /**
   * Every resource usage the library knows, in declaration order: NONE, the
   * reads up to and including PRESENT, the writes, then GENERAL.
   * THSVS_ACCESS_NONE is `NoAccess` here.
   */
  datatype AccessType =
    | NoAccess
    | CommandBufferReadNvx
    | IndirectBuffer
    | IndexBuffer
    | VertexBuffer
    | VertexShaderReadUniformBuffer
    | VertexShaderReadSampledImageOrUniformTexelBuffer
    | VertexShaderReadOther
    | TessellationControlShaderReadUniformBuffer
    | TessellationControlShaderReadSampledImageOrUniformTexelBuffer
    | TessellationControlShaderReadOther
    | TessellationEvaluationShaderReadUniformBuffer
    | TessellationEvaluationShaderReadSampledImageOrUniformTexelBuffer
    | TessellationEvaluationShaderReadOther
    | GeometryShaderReadUniformBuffer
    | GeometryShaderReadSampledImageOrUniformTexelBuffer
    | GeometryShaderReadOther
    | FragmentShaderReadUniformBuffer
    | FragmentShaderReadSampledImageOrUniformTexelBuffer
    | FragmentShaderReadColorInputAttachment
    | FragmentShaderReadDepthStencilInputAttachment
    | FragmentShaderReadOther
    | ColorAttachmentRead
    | DepthStencilAttachmentRead
    | ComputeShaderReadUniformBuffer
    | ComputeShaderReadSampledImageOrUniformTexelBuffer
    | ComputeShaderReadOther
    | AnyShaderReadUniformBuffer
    | AnyShaderReadUniformBufferOrVertexBuffer
    | AnyShaderReadSampledImageOrUniformTexelBuffer
    | AnyShaderReadOther
    | TransferRead
    | HostRead
    | Present
    | CommandBufferWriteNvx
    | VertexShaderWrite
    | TessellationControlShaderWrite
    | TessellationEvaluationShaderWrite
    | GeometryShaderWrite
    | FragmentShaderWrite
    | ColorAttachmentWrite
    | DepthStencilAttachmentWrite
    | DepthAttachmentWriteStencilReadOnly
    | StencilAttachmentWriteDepthReadOnly
    | ComputeShaderWrite
    | AnyShaderWrite
    | TransferWrite
    | HostWrite
    | ColorAttachmentReadWrite
    | General

  /** THSVS_NUM_ACCESS_TYPES. */
  const NumAccessTypes: nat := 50

  /** The C enumerator value of an access type. */
  function Ordinal(a: AccessType): (n: nat)
    ensures n < NumAccessTypes
  {
    match a
    case NoAccess => 0
    case CommandBufferReadNvx => 1
    case IndirectBuffer => 2
    case IndexBuffer => 3
    case VertexBuffer => 4
    case VertexShaderReadUniformBuffer => 5
    case VertexShaderReadSampledImageOrUniformTexelBuffer => 6
    case VertexShaderReadOther => 7
    case TessellationControlShaderReadUniformBuffer => 8
    case TessellationControlShaderReadSampledImageOrUniformTexelBuffer => 9
    case TessellationControlShaderReadOther => 10
    case TessellationEvaluationShaderReadUniformBuffer => 11
    case TessellationEvaluationShaderReadSampledImageOrUniformTexelBuffer => 12
    case TessellationEvaluationShaderReadOther => 13
    case GeometryShaderReadUniformBuffer => 14
    case GeometryShaderReadSampledImageOrUniformTexelBuffer => 15
    case GeometryShaderReadOther => 16
    case FragmentShaderReadUniformBuffer => 17
    case FragmentShaderReadSampledImageOrUniformTexelBuffer => 18
    case FragmentShaderReadColorInputAttachment => 19
    case FragmentShaderReadDepthStencilInputAttachment => 20
    case FragmentShaderReadOther => 21
    case ColorAttachmentRead => 22
    case DepthStencilAttachmentRead => 23
    case ComputeShaderReadUniformBuffer => 24
    case ComputeShaderReadSampledImageOrUniformTexelBuffer => 25
    case ComputeShaderReadOther => 26
    case AnyShaderReadUniformBuffer => 27
    case AnyShaderReadUniformBufferOrVertexBuffer => 28
    case AnyShaderReadSampledImageOrUniformTexelBuffer => 29
    case AnyShaderReadOther => 30
    case TransferRead => 31
    case HostRead => 32
    case Present => 33
    case CommandBufferWriteNvx => 34
    case VertexShaderWrite => 35
    case TessellationControlShaderWrite => 36
    case TessellationEvaluationShaderWrite => 37
    case GeometryShaderWrite => 38
    case FragmentShaderWrite => 39
    case ColorAttachmentWrite => 40
    case DepthStencilAttachmentWrite => 41
    case DepthAttachmentWriteStencilReadOnly => 42
    case StencilAttachmentWriteDepthReadOnly => 43
    case ComputeShaderWrite => 44
    case AnyShaderWrite => 45
    case TransferWrite => 46
    case HostWrite => 47
    case ColorAttachmentReadWrite => 48
    case General => 49
  }

  /** The access type whose enumerator value is `n`. */
  function FromOrdinal(n: nat): (a: AccessType)
    requires n < NumAccessTypes
  {
    match n
    case 0 => NoAccess
    case 1 => CommandBufferReadNvx
    case 2 => IndirectBuffer
    case 3 => IndexBuffer
    case 4 => VertexBuffer
    case 5 => VertexShaderReadUniformBuffer
    case 6 => VertexShaderReadSampledImageOrUniformTexelBuffer
    case 7 => VertexShaderReadOther
    case 8 => TessellationControlShaderReadUniformBuffer
    case 9 => TessellationControlShaderReadSampledImageOrUniformTexelBuffer
    case 10 => TessellationControlShaderReadOther
    case 11 => TessellationEvaluationShaderReadUniformBuffer
    case 12 => TessellationEvaluationShaderReadSampledImageOrUniformTexelBuffer
    case 13 => TessellationEvaluationShaderReadOther
    case 14 => GeometryShaderReadUniformBuffer
    case 15 => GeometryShaderReadSampledImageOrUniformTexelBuffer
    case 16 => GeometryShaderReadOther
    case 17 => FragmentShaderReadUniformBuffer
    case 18 => FragmentShaderReadSampledImageOrUniformTexelBuffer
    case 19 => FragmentShaderReadColorInputAttachment
    case 20 => FragmentShaderReadDepthStencilInputAttachment
    case 21 => FragmentShaderReadOther
    case 22 => ColorAttachmentRead
    case 23 => DepthStencilAttachmentRead
    case 24 => ComputeShaderReadUniformBuffer
    case 25 => ComputeShaderReadSampledImageOrUniformTexelBuffer
    case 26 => ComputeShaderReadOther
    case 27 => AnyShaderReadUniformBuffer
    case 28 => AnyShaderReadUniformBufferOrVertexBuffer
    case 29 => AnyShaderReadSampledImageOrUniformTexelBuffer
    case 30 => AnyShaderReadOther
    case 31 => TransferRead
    case 32 => HostRead
    case 33 => Present
    case 34 => CommandBufferWriteNvx
    case 35 => VertexShaderWrite
    case 36 => TessellationControlShaderWrite
    case 37 => TessellationEvaluationShaderWrite
    case 38 => GeometryShaderWrite
    case 39 => FragmentShaderWrite
    case 40 => ColorAttachmentWrite
    case 41 => DepthStencilAttachmentWrite
    case 42 => DepthAttachmentWriteStencilReadOnly
    case 43 => StencilAttachmentWriteDepthReadOnly
    case 44 => ComputeShaderWrite
    case 45 => AnyShaderWrite
    case 46 => TransferWrite
    case 47 => HostWrite
    case 48 => ColorAttachmentReadWrite
    case _ => General
  }

  /**
   * Reads and writes are told apart by enumerator value alone: everything
   * declared after PRESENT counts as a write.
   */
  predicate IsWrite(a: AccessType) {
    Ordinal(a) > Ordinal(Present)
  }

  /** One row of ThsvsAccessMap (ThsvsVkAccessInfo). */
  datatype AccessInfo = AccessInfo(stageMask: StageMask, accessMask: AccessMask, imageLayout: ImageLayout)

  /**
   * ThsvsAccessMap: the row of every access type, in enumerator order. The C
   * array is indexed by enumerator value; a match over the closed
   * enumeration is the same total map.
   */
  function Info(a: AccessType): AccessInfo {
    match a
    case NoAccess => // NONE
      AccessInfo({}, {}, LayoutUndefined)
    case CommandBufferReadNvx => // COMMAND_BUFFER_READ_NVX
      AccessInfo({CommandProcessBitNvx}, {CommandProcessReadBitNvx}, LayoutUndefined)
    case IndirectBuffer => // INDIRECT_BUFFER
      AccessInfo({DrawIndirectBit}, {IndirectCommandReadBit}, LayoutUndefined)
    case IndexBuffer => // INDEX_BUFFER
      AccessInfo({VertexInputBit}, {IndexReadBit}, LayoutUndefined)
    case VertexBuffer => // VERTEX_BUFFER
      AccessInfo({VertexInputBit}, {VertexAttributeReadBit}, LayoutUndefined)
    case VertexShaderReadUniformBuffer => // VERTEX_SHADER_READ_UNIFORM_BUFFER
      AccessInfo({VertexShaderBit}, {UniformReadBit}, LayoutUndefined)
    case VertexShaderReadSampledImageOrUniformTexelBuffer => // VERTEX_SHADER_READ_SAMPLED_IMAGE_OR_UNIFORM_TEXEL_BUFFER
      AccessInfo({VertexShaderBit}, {ShaderReadBit}, LayoutShaderReadOnlyOptimal)
    case VertexShaderReadOther => // VERTEX_SHADER_READ_OTHER
      AccessInfo({VertexShaderBit}, {ShaderReadBit}, LayoutGeneral)
    case TessellationControlShaderReadUniformBuffer => // TESSELLATION_CONTROL_SHADER_READ_UNIFORM_BUFFER
      AccessInfo({TessellationControlShaderBit}, {UniformReadBit}, LayoutUndefined)
    case TessellationControlShaderReadSampledImageOrUniformTexelBuffer => // TESSELLATION_CONTROL_SHADER_READ_SAMPLED_IMAGE_OR_UNIFORM_TEXEL_BUFFER
      AccessInfo({TessellationControlShaderBit}, {ShaderReadBit}, LayoutShaderReadOnlyOptimal)
    case TessellationControlShaderReadOther => // TESSELLATION_CONTROL_SHADER_READ_OTHER
      AccessInfo({TessellationControlShaderBit}, {ShaderReadBit}, LayoutGeneral)
    case TessellationEvaluationShaderReadUniformBuffer => // TESSELLATION_EVALUATION_SHADER_READ_UNIFORM_BUFFER
      AccessInfo({TessellationEvaluationShaderBit}, {UniformReadBit}, LayoutUndefined)
    case TessellationEvaluationShaderReadSampledImageOrUniformTexelBuffer => // TESSELLATION_EVALUATION_SHADER_READ_SAMPLED_IMAGE_OR_UNIFORM_TEXEL_BUFFER
      AccessInfo({TessellationEvaluationShaderBit}, {ShaderReadBit}, LayoutShaderReadOnlyOptimal)
    case TessellationEvaluationShaderReadOther => // TESSELLATION_EVALUATION_SHADER_READ_OTHER
      AccessInfo({TessellationEvaluationShaderBit}, {ShaderReadBit}, LayoutGeneral)
    case GeometryShaderReadUniformBuffer => // GEOMETRY_SHADER_READ_UNIFORM_BUFFER
      AccessInfo({GeometryShaderBit}, {UniformReadBit}, LayoutUndefined)
    case GeometryShaderReadSampledImageOrUniformTexelBuffer => // GEOMETRY_SHADER_READ_SAMPLED_IMAGE_OR_UNIFORM_TEXEL_BUFFER
      AccessInfo({GeometryShaderBit}, {ShaderReadBit}, LayoutShaderReadOnlyOptimal)
    case GeometryShaderReadOther => // GEOMETRY_SHADER_READ_OTHER
      AccessInfo({GeometryShaderBit}, {ShaderReadBit}, LayoutGeneral)
    case FragmentShaderReadUniformBuffer => // FRAGMENT_SHADER_READ_UNIFORM_BUFFER
      AccessInfo({FragmentShaderBit}, {UniformReadBit}, LayoutUndefined)
    case FragmentShaderReadSampledImageOrUniformTexelBuffer => // FRAGMENT_SHADER_READ_SAMPLED_IMAGE_OR_UNIFORM_TEXEL_BUFFER
      AccessInfo({FragmentShaderBit}, {ShaderReadBit}, LayoutShaderReadOnlyOptimal)
    case FragmentShaderReadColorInputAttachment => // FRAGMENT_SHADER_READ_COLOR_INPUT_ATTACHMENT
      AccessInfo({FragmentShaderBit}, {InputAttachmentReadBit}, LayoutShaderReadOnlyOptimal)
    case FragmentShaderReadDepthStencilInputAttachment => // FRAGMENT_SHADER_READ_DEPTH_STENCIL_INPUT_ATTACHMENT
      AccessInfo({FragmentShaderBit}, {DepthStencilAttachmentReadBit}, LayoutDepthStencilReadOnlyOptimal)
    case FragmentShaderReadOther => // FRAGMENT_SHADER_READ_OTHER
      AccessInfo({FragmentShaderBit}, {ShaderReadBit}, LayoutGeneral)
    case ColorAttachmentRead => // COLOR_ATTACHMENT_READ
      AccessInfo({ColorAttachmentOutputBit}, {ColorAttachmentReadBit}, LayoutColorAttachmentOptimal)
    case DepthStencilAttachmentRead => // DEPTH_STENCIL_ATTACHMENT_READ
      AccessInfo({EarlyFragmentTestsBit, LateFragmentTestsBit}, {DepthStencilAttachmentReadBit}, LayoutDepthStencilReadOnlyOptimal)
    case ComputeShaderReadUniformBuffer => // COMPUTE_SHADER_READ_UNIFORM_BUFFER
      AccessInfo({ComputeShaderBit}, {UniformReadBit}, LayoutUndefined)
    case ComputeShaderReadSampledImageOrUniformTexelBuffer => // COMPUTE_SHADER_READ_SAMPLED_IMAGE_OR_UNIFORM_TEXEL_BUFFER
      AccessInfo({ComputeShaderBit}, {ShaderReadBit}, LayoutShaderReadOnlyOptimal)
    case ComputeShaderReadOther => // COMPUTE_SHADER_READ_OTHER
      AccessInfo({ComputeShaderBit}, {ShaderReadBit}, LayoutGeneral)
    case AnyShaderReadUniformBuffer => // ANY_SHADER_READ_UNIFORM_BUFFER
      AccessInfo({AllCommandsBit}, {UniformReadBit}, LayoutUndefined)
    case AnyShaderReadUniformBufferOrVertexBuffer => // ANY_SHADER_READ_UNIFORM_BUFFER_OR_VERTEX_BUFFER
      AccessInfo({AllCommandsBit}, {UniformReadBit, VertexAttributeReadBit}, LayoutUndefined)
    case AnyShaderReadSampledImageOrUniformTexelBuffer => // ANY_SHADER_READ_SAMPLED_IMAGE_OR_UNIFORM_TEXEL_BUFFER
      AccessInfo({AllCommandsBit}, {ShaderReadBit}, LayoutShaderReadOnlyOptimal)
    case AnyShaderReadOther => // ANY_SHADER_READ_OTHER
      AccessInfo({AllCommandsBit}, {ShaderReadBit}, LayoutGeneral)
    case TransferRead => // TRANSFER_READ
      AccessInfo({TransferBit}, {TransferReadBit}, LayoutTransferSrcOptimal)
    case HostRead => // HOST_READ
      AccessInfo({HostBit}, {HostReadBit}, LayoutGeneral)
    case Present => // PRESENT
      AccessInfo({TopOfPipeBit}, {}, LayoutPresentSrcKhr)
    case CommandBufferWriteNvx => // COMMAND_BUFFER_WRITE_NVX
      AccessInfo({CommandProcessBitNvx}, {CommandProcessWriteBitNvx}, LayoutUndefined)
    case VertexShaderWrite => // VERTEX_SHADER_WRITE
      AccessInfo({VertexShaderBit}, {ShaderWriteBit}, LayoutGeneral)
    case TessellationControlShaderWrite => // TESSELLATION_CONTROL_SHADER_WRITE
      AccessInfo({TessellationControlShaderBit}, {ShaderWriteBit}, LayoutGeneral)
    case TessellationEvaluationShaderWrite => // TESSELLATION_EVALUATION_SHADER_WRITE
      AccessInfo({TessellationEvaluationShaderBit}, {ShaderWriteBit}, LayoutGeneral)
    case GeometryShaderWrite => // GEOMETRY_SHADER_WRITE
      AccessInfo({GeometryShaderBit}, {ShaderWriteBit}, LayoutGeneral)
    case FragmentShaderWrite => // FRAGMENT_SHADER_WRITE
      AccessInfo({FragmentShaderBit}, {ShaderWriteBit}, LayoutGeneral)
    case ColorAttachmentWrite => // COLOR_ATTACHMENT_WRITE
      AccessInfo({ColorAttachmentOutputBit}, {ColorAttachmentWriteBit}, LayoutColorAttachmentOptimal)
    case DepthStencilAttachmentWrite => // DEPTH_STENCIL_ATTACHMENT_WRITE
      AccessInfo({EarlyFragmentTestsBit, LateFragmentTestsBit}, {DepthStencilAttachmentWriteBit}, LayoutDepthStencilAttachmentOptimal)
    case DepthAttachmentWriteStencilReadOnly => // DEPTH_ATTACHMENT_WRITE_STENCIL_READ_ONLY
      AccessInfo({EarlyFragmentTestsBit, LateFragmentTestsBit}, {DepthStencilAttachmentWriteBit, DepthStencilAttachmentReadBit}, LayoutDepthAttachmentStencilReadOnlyOptimalKhr)
    case StencilAttachmentWriteDepthReadOnly => // STENCIL_ATTACHMENT_WRITE_DEPTH_READ_ONLY
      AccessInfo({EarlyFragmentTestsBit, LateFragmentTestsBit}, {DepthStencilAttachmentWriteBit, DepthStencilAttachmentReadBit}, LayoutDepthReadOnlyStencilAttachmentOptimalKhr)
    case ComputeShaderWrite => // COMPUTE_SHADER_WRITE
      AccessInfo({ComputeShaderBit}, {ShaderWriteBit}, LayoutGeneral)
    case AnyShaderWrite => // ANY_SHADER_WRITE
      AccessInfo({AllCommandsBit}, {ShaderWriteBit}, LayoutGeneral)
    case TransferWrite => // TRANSFER_WRITE
      AccessInfo({TransferBit}, {TransferWriteBit}, LayoutTransferDstOptimal)
    case HostWrite => // HOST_WRITE
      AccessInfo({HostBit}, {HostWriteBit}, LayoutGeneral)
    case ColorAttachmentReadWrite => // COLOR_ATTACHMENT_READ_WRITE
      AccessInfo({ColorAttachmentOutputBit}, {ColorAttachmentReadBit, ColorAttachmentWriteBit}, LayoutColorAttachmentOptimal)
    case General => // GENERAL
      AccessInfo({AllCommandsBit}, {MemoryReadBit, MemoryWriteBit}, LayoutGeneral)
  }
  // ---- The enumeration ------------------------------------------------------

  /**
   * Splits the enumeration, in declaration order, into five consecutive
   * blocks. This is proof bookkeeping only, not part of the library: the
   * round trip below is proved block by block so that each proof stays small.
   */
  function Block(a: AccessType): (b: nat)
    ensures b < 5
  {
    match a
    case NoAccess | CommandBufferReadNvx | IndirectBuffer | IndexBuffer | VertexBuffer
      | VertexShaderReadUniformBuffer | VertexShaderReadSampledImageOrUniformTexelBuffer
      | VertexShaderReadOther | TessellationControlShaderReadUniformBuffer
      | TessellationControlShaderReadSampledImageOrUniformTexelBuffer
      | TessellationControlShaderReadOther | TessellationEvaluationShaderReadUniformBuffer
      | TessellationEvaluationShaderReadSampledImageOrUniformTexelBuffer
      | TessellationEvaluationShaderReadOther | GeometryShaderReadUniformBuffer
      | GeometryShaderReadSampledImageOrUniformTexelBuffer | GeometryShaderReadOther
      | FragmentShaderReadUniformBuffer | FragmentShaderReadSampledImageOrUniformTexelBuffer
      | FragmentShaderReadColorInputAttachment | FragmentShaderReadDepthStencilInputAttachment
      | FragmentShaderReadOther | ColorAttachmentRead | DepthStencilAttachmentRead
      | ComputeShaderReadUniformBuffer => 0
    case ComputeShaderReadSampledImageOrUniformTexelBuffer | ComputeShaderReadOther
      | AnyShaderReadUniformBuffer | AnyShaderReadUniformBufferOrVertexBuffer
      | AnyShaderReadSampledImageOrUniformTexelBuffer | AnyShaderReadOther | TransferRead | HostRead => 1
    case Present | CommandBufferWriteNvx | VertexShaderWrite | TessellationControlShaderWrite
      | TessellationEvaluationShaderWrite | GeometryShaderWrite | FragmentShaderWrite => 2
    case ColorAttachmentWrite | DepthStencilAttachmentWrite | DepthAttachmentWriteStencilReadOnly
      | StencilAttachmentWriteDepthReadOnly | ComputeShaderWrite => 3
    case _ => 4
  }

  /** The enumerators with values 0 to 24 map back to themselves. */
  lemma RoundTripInBlock0(a: AccessType)
    requires Block(a) == 0
    ensures FromOrdinal(Ordinal(a)) == a
  {
    match a
    case NoAccess =>
    case CommandBufferReadNvx =>
    case IndirectBuffer =>
    case IndexBuffer =>
    case VertexBuffer =>
    case VertexShaderReadUniformBuffer =>
    case VertexShaderReadSampledImageOrUniformTexelBuffer =>
    case VertexShaderReadOther =>
    case TessellationControlShaderReadUniformBuffer =>
    case TessellationControlShaderReadSampledImageOrUniformTexelBuffer =>
    case TessellationControlShaderReadOther =>
    case TessellationEvaluationShaderReadUniformBuffer =>
    case TessellationEvaluationShaderReadSampledImageOrUniformTexelBuffer =>
    case TessellationEvaluationShaderReadOther =>
    case GeometryShaderReadUniformBuffer =>
    case GeometryShaderReadSampledImageOrUniformTexelBuffer =>
    case GeometryShaderReadOther =>
    case FragmentShaderReadUniformBuffer =>
    case FragmentShaderReadSampledImageOrUniformTexelBuffer =>
    case FragmentShaderReadColorInputAttachment =>
    case FragmentShaderReadDepthStencilInputAttachment =>
    case FragmentShaderReadOther =>
    case ColorAttachmentRead =>
    case DepthStencilAttachmentRead =>
    case ComputeShaderReadUniformBuffer =>
  }

  /** The enumerators with values 25 to 32 map back to themselves. */
  lemma RoundTripInBlock1(a: AccessType)
    requires Block(a) == 1
    ensures FromOrdinal(Ordinal(a)) == a
  {
    match a
    case ComputeShaderReadSampledImageOrUniformTexelBuffer =>
    case ComputeShaderReadOther =>
    case AnyShaderReadUniformBuffer =>
    case AnyShaderReadUniformBufferOrVertexBuffer =>
    case AnyShaderReadSampledImageOrUniformTexelBuffer =>
    case AnyShaderReadOther =>
    case TransferRead =>
    case HostRead =>
  }

  /** The enumerators with values 33 to 39 map back to themselves. */
  lemma RoundTripInBlock2(a: AccessType)
    requires Block(a) == 2
    ensures FromOrdinal(Ordinal(a)) == a
  {
    match a
    case Present =>
    case CommandBufferWriteNvx =>
    case VertexShaderWrite =>
    case TessellationControlShaderWrite =>
    case TessellationEvaluationShaderWrite =>
    case GeometryShaderWrite =>
    case FragmentShaderWrite =>
  }

  /** The enumerators with values 40 to 44 map back to themselves. */
  lemma RoundTripInBlock3(a: AccessType)
    requires Block(a) == 3
    ensures FromOrdinal(Ordinal(a)) == a
  {
    match a
    case ColorAttachmentWrite =>
    case DepthStencilAttachmentWrite =>
    case DepthAttachmentWriteStencilReadOnly =>
    case StencilAttachmentWriteDepthReadOnly =>
    case ComputeShaderWrite =>
  }

  /** The enumerators with values 45 to 49 map back to themselves. */
  lemma RoundTripInBlock4(a: AccessType)
    requires Block(a) == 4
    ensures FromOrdinal(Ordinal(a)) == a
  {
    match a
    case AnyShaderWrite =>
    case TransferWrite =>
    case HostWrite =>
    case ColorAttachmentReadWrite =>
    case General =>
  }

  /** Enumerator values and access types are in one-to-one correspondence. */
  lemma OrdinalThenFromOrdinal(a: AccessType)
    ensures FromOrdinal(Ordinal(a)) == a
  {
    match Block(a)
    case 0 => RoundTripInBlock0(a);
    case 1 => RoundTripInBlock1(a);
    case 2 => RoundTripInBlock2(a);
    case 3 => RoundTripInBlock3(a);
    case _ => RoundTripInBlock4(a);
  }

  /** And every enumerator value below THSVS_NUM_ACCESS_TYPES names an access type. */
  lemma FromOrdinalThenOrdinal(n: nat)
    requires n < NumAccessTypes
    ensures Ordinal(FromOrdinal(n)) == n
  {
  }

  /** Distinct access types have distinct enumerator values, so distinct rows of the C array. */
  lemma OrdinalIsInjective(a: AccessType, b: AccessType)
    ensures Ordinal(a) == Ordinal(b) ==> a == b
  {
    OrdinalThenFromOrdinal(a);
    OrdinalThenFromOrdinal(b);
  }

  /**
   * The writes are exactly the enumerators declared after PRESENT; among
   * them are COLOR_ATTACHMENT_READ_WRITE and GENERAL.
   */
  lemma WritesAreTheEnumeratorsAfterPresent(a: AccessType)
    ensures IsWrite(a) <==>
      a in {CommandBufferWriteNvx, VertexShaderWrite, TessellationControlShaderWrite,
            TessellationEvaluationShaderWrite, GeometryShaderWrite, FragmentShaderWrite,
            ColorAttachmentWrite, DepthStencilAttachmentWrite, DepthAttachmentWriteStencilReadOnly,
            StencilAttachmentWriteDepthReadOnly, ComputeShaderWrite, AnyShaderWrite, TransferWrite,
            HostWrite, ColorAttachmentReadWrite, General}
  {
    match a
    case NoAccess =>
    case CommandBufferReadNvx =>
    case IndirectBuffer =>
    case IndexBuffer =>
    case VertexBuffer =>
    case VertexShaderReadUniformBuffer =>
    case VertexShaderReadSampledImageOrUniformTexelBuffer =>
    case VertexShaderReadOther =>
    case TessellationControlShaderReadUniformBuffer =>
    case TessellationControlShaderReadSampledImageOrUniformTexelBuffer =>
    case TessellationControlShaderReadOther =>
    case TessellationEvaluationShaderReadUniformBuffer =>
    case TessellationEvaluationShaderReadSampledImageOrUniformTexelBuffer =>
    case TessellationEvaluationShaderReadOther =>
    case GeometryShaderReadUniformBuffer =>
    case GeometryShaderReadSampledImageOrUniformTexelBuffer =>
    case GeometryShaderReadOther =>
    case FragmentShaderReadUniformBuffer =>
    case FragmentShaderReadSampledImageOrUniformTexelBuffer =>
    case FragmentShaderReadColorInputAttachment =>
    case FragmentShaderReadDepthStencilInputAttachment =>
    case FragmentShaderReadOther =>
    case ColorAttachmentRead =>
    case DepthStencilAttachmentRead =>
    case ComputeShaderReadUniformBuffer =>
    case ComputeShaderReadSampledImageOrUniformTexelBuffer =>
    case ComputeShaderReadOther =>
    case AnyShaderReadUniformBuffer =>
    case AnyShaderReadUniformBufferOrVertexBuffer =>
    case AnyShaderReadSampledImageOrUniformTexelBuffer =>
    case AnyShaderReadOther =>
    case TransferRead =>
    case HostRead =>
    case Present =>
    case CommandBufferWriteNvx =>
    case VertexShaderWrite =>
    case TessellationControlShaderWrite =>
    case TessellationEvaluationShaderWrite =>
    case GeometryShaderWrite =>
    case FragmentShaderWrite =>
    case ColorAttachmentWrite =>
    case DepthStencilAttachmentWrite =>
    case DepthAttachmentWriteStencilReadOnly =>
    case StencilAttachmentWriteDepthReadOnly =>
    case ComputeShaderWrite =>
    case AnyShaderWrite =>
    case TransferWrite =>
    case HostWrite =>
    case ColorAttachmentReadWrite =>
    case General =>
  }

  // ---- Families of rows -----------------------------------------------------

  /** Access types that only make sense for buffers (or command buffers). */
  predicate IsBufferOnly(a: AccessType) {
    a in {CommandBufferReadNvx, IndirectBuffer, IndexBuffer, VertexBuffer,
          VertexShaderReadUniformBuffer, TessellationControlShaderReadUniformBuffer,
          TessellationEvaluationShaderReadUniformBuffer, GeometryShaderReadUniformBuffer,
          FragmentShaderReadUniformBuffer, ComputeShaderReadUniformBuffer,
          AnyShaderReadUniformBuffer, AnyShaderReadUniformBufferOrVertexBuffer,
          CommandBufferWriteNvx}
  }

  /** The *_READ_SAMPLED_IMAGE_OR_UNIFORM_TEXEL_BUFFER access types. */
  predicate ReadsSampledImage(a: AccessType) {
    a in {VertexShaderReadSampledImageOrUniformTexelBuffer,
          TessellationControlShaderReadSampledImageOrUniformTexelBuffer,
          TessellationEvaluationShaderReadSampledImageOrUniformTexelBuffer,
          GeometryShaderReadSampledImageOrUniformTexelBuffer,
          FragmentShaderReadSampledImageOrUniformTexelBuffer,
          ComputeShaderReadSampledImageOrUniformTexelBuffer,
          AnyShaderReadSampledImageOrUniformTexelBuffer}
  }

  /** The *_READ_OTHER access types (storage buffers and images). */
  predicate ReadsOther(a: AccessType) {
    a in {VertexShaderReadOther, TessellationControlShaderReadOther,
          TessellationEvaluationShaderReadOther, GeometryShaderReadOther,
          FragmentShaderReadOther, ComputeShaderReadOther, AnyShaderReadOther}
  }

  /** The *_SHADER_WRITE access types. */
  predicate IsShaderWrite(a: AccessType) {
    a in {VertexShaderWrite, TessellationControlShaderWrite, TessellationEvaluationShaderWrite,
          GeometryShaderWrite, FragmentShaderWrite, ComputeShaderWrite, AnyShaderWrite}
  }

  /** The ANY_SHADER_* access types, whose shader stage is not known. */
  predicate IsAnyShader(a: AccessType) {
    a in {AnyShaderReadUniformBuffer, AnyShaderReadUniformBufferOrVertexBuffer,
          AnyShaderReadSampledImageOrUniformTexelBuffer, AnyShaderReadOther, AnyShaderWrite}
  }

  /** NONE and PRESENT make nothing available and wait on nothing but TOP_OF_PIPE. */
  lemma NoneAndPresentRows()
    ensures Info(NoAccess) == AccessInfo({}, {}, LayoutUndefined)
    ensures Info(Present) == AccessInfo({TopOfPipeBit}, {}, LayoutPresentSrcKhr)
  {
  }

  /** GENERAL covers every command and every memory access, in the general layout. */
  lemma GeneralRow()
    ensures Info(General) == AccessInfo({AllCommandsBit}, {MemoryReadBit, MemoryWriteBit}, LayoutGeneral)
  {
  }

  /** The mixed depth/stencil rows read and write the attachment, in the split layouts. */
  lemma MixedDepthStencilRows()
    ensures Info(DepthAttachmentWriteStencilReadOnly) ==
      AccessInfo({EarlyFragmentTestsBit, LateFragmentTestsBit},
                 {DepthStencilAttachmentReadBit, DepthStencilAttachmentWriteBit},
                 LayoutDepthAttachmentStencilReadOnlyOptimalKhr)
    ensures Info(StencilAttachmentWriteDepthReadOnly) ==
      AccessInfo({EarlyFragmentTestsBit, LateFragmentTestsBit},
                 {DepthStencilAttachmentReadBit, DepthStencilAttachmentWriteBit},
                 LayoutDepthReadOnlyStencilAttachmentOptimalKhr)
  {
  }

  /** COLOR_ATTACHMENT_READ_WRITE carries both colour attachment bits. */
  lemma ColorAttachmentReadWriteRow()
    ensures Info(ColorAttachmentReadWrite) ==
      AccessInfo({ColorAttachmentOutputBit}, {ColorAttachmentReadBit, ColorAttachmentWriteBit},
                 LayoutColorAttachmentOptimal)
  {
  }

  /** PRESENT is the only access type other than NONE with no memory-access bits. */
  lemma OnlyNoneAndPresentCarryNoAccessBits(a: AccessType)
    ensures Info(a).accessMask == {} <==> a == NoAccess || a == Present
  {
    match a
    case NoAccess =>
    case CommandBufferReadNvx =>
    case IndirectBuffer =>
    case IndexBuffer =>
    case VertexBuffer =>
    case VertexShaderReadUniformBuffer =>
    case VertexShaderReadSampledImageOrUniformTexelBuffer =>
    case VertexShaderReadOther =>
    case TessellationControlShaderReadUniformBuffer =>
    case TessellationControlShaderReadSampledImageOrUniformTexelBuffer =>
    case TessellationControlShaderReadOther =>
    case TessellationEvaluationShaderReadUniformBuffer =>
    case TessellationEvaluationShaderReadSampledImageOrUniformTexelBuffer =>
    case TessellationEvaluationShaderReadOther =>
    case GeometryShaderReadUniformBuffer =>
    case GeometryShaderReadSampledImageOrUniformTexelBuffer =>
    case GeometryShaderReadOther =>
    case FragmentShaderReadUniformBuffer =>
    case FragmentShaderReadSampledImageOrUniformTexelBuffer =>
    case FragmentShaderReadColorInputAttachment =>
    case FragmentShaderReadDepthStencilInputAttachment =>
    case FragmentShaderReadOther =>
    case ColorAttachmentRead =>
    case DepthStencilAttachmentRead =>
    case ComputeShaderReadUniformBuffer =>
    case ComputeShaderReadSampledImageOrUniformTexelBuffer =>
    case ComputeShaderReadOther =>
    case AnyShaderReadUniformBuffer =>
    case AnyShaderReadUniformBufferOrVertexBuffer =>
    case AnyShaderReadSampledImageOrUniformTexelBuffer =>
    case AnyShaderReadOther =>
    case TransferRead =>
    case HostRead =>
    case Present =>
    case CommandBufferWriteNvx =>
    case VertexShaderWrite =>
    case TessellationControlShaderWrite =>
    case TessellationEvaluationShaderWrite =>
    case GeometryShaderWrite =>
    case FragmentShaderWrite =>
    case ColorAttachmentWrite =>
    case DepthStencilAttachmentWrite =>
    case DepthAttachmentWriteStencilReadOnly =>
    case StencilAttachmentWriteDepthReadOnly =>
    case ComputeShaderWrite =>
    case AnyShaderWrite =>
    case TransferWrite =>
    case HostWrite =>
    case ColorAttachmentReadWrite =>
    case General =>
  }

  /** Buffer-only rows imply no image layout. */
  lemma BufferOnlyRowsHaveNoLayout(a: AccessType)
    requires IsBufferOnly(a)
    ensures Info(a).imageLayout == LayoutUndefined
  {
  }

  /** Sampled-image reads are shader reads in the read-only sampling layout. */
  lemma SampledImageRows(a: AccessType)
    requires ReadsSampledImage(a)
    ensures Info(a).accessMask == {ShaderReadBit}
    ensures Info(a).imageLayout == LayoutShaderReadOnlyOptimal
  {
  }

  /** Storage reads are shader reads in the general layout. */
  lemma StorageReadRows(a: AccessType)
    requires ReadsOther(a)
    ensures Info(a).accessMask == {ShaderReadBit}
    ensures Info(a).imageLayout == LayoutGeneral
  {
  }

  /** Shader writes are shader writes in the general layout. */
  lemma ShaderWriteRows(a: AccessType)
    requires IsShaderWrite(a)
    ensures Info(a).accessMask == {ShaderWriteBit}
    ensures Info(a).imageLayout == LayoutGeneral
  {
  }

  /** Host accesses use the host stage and the general layout. */
  lemma HostRows()
    ensures Info(HostRead) == AccessInfo({HostBit}, {HostReadBit}, LayoutGeneral)
    ensures Info(HostWrite) == AccessInfo({HostBit}, {HostWriteBit}, LayoutGeneral)
  {
  }

  /** Transfers use the transfer-optimal layouts. */
  lemma TransferRows()
    ensures Info(TransferRead) == AccessInfo({TransferBit}, {TransferReadBit}, LayoutTransferSrcOptimal)
    ensures Info(TransferWrite) == AccessInfo({TransferBit}, {TransferWriteBit}, LayoutTransferDstOptimal)
  {
  }

  /** ANY_SHADER rows wait on every stage, since the shader stage is unknown. */
  lemma AnyShaderRowsUseAllCommands(a: AccessType)
    requires IsAnyShader(a)
    ensures Info(a).stageMask == {AllCommandsBit}
  {
  }

  /** Attachment rows use the attachment stages and attachment-optimal layouts. */
  lemma AttachmentRows(a: AccessType)
    ensures a in {ColorAttachmentRead, ColorAttachmentWrite, ColorAttachmentReadWrite} ==>
      Info(a).stageMask == {ColorAttachmentOutputBit} &&
      Info(a).imageLayout == LayoutColorAttachmentOptimal
    ensures a == DepthStencilAttachmentRead ==>
      Info(a) == AccessInfo({EarlyFragmentTestsBit, LateFragmentTestsBit}, {DepthStencilAttachmentReadBit},
                            LayoutDepthStencilReadOnlyOptimal)
    ensures a == DepthStencilAttachmentWrite ==>
      Info(a) == AccessInfo({EarlyFragmentTestsBit, LateFragmentTestsBit}, {DepthStencilAttachmentWriteBit},
                            LayoutDepthStencilAttachmentOptimal)
  {
  }

  /** Stage-specific shader rows wait on exactly their own shader stage. */
  lemma StageSpecificShaderRows(a: AccessType)
    ensures a in {VertexShaderReadUniformBuffer, VertexShaderReadSampledImageOrUniformTexelBuffer,
                  VertexShaderReadOther, VertexShaderWrite} ==>
              Info(a).stageMask == {VertexShaderBit}
    ensures a in {TessellationControlShaderReadUniformBuffer,
                  TessellationControlShaderReadSampledImageOrUniformTexelBuffer,
                  TessellationControlShaderReadOther, TessellationControlShaderWrite} ==>
              Info(a).stageMask == {TessellationControlShaderBit}
    ensures a in {TessellationEvaluationShaderReadUniformBuffer,
                  TessellationEvaluationShaderReadSampledImageOrUniformTexelBuffer,
                  TessellationEvaluationShaderReadOther, TessellationEvaluationShaderWrite} ==>
              Info(a).stageMask == {TessellationEvaluationShaderBit}
    ensures a in {GeometryShaderReadUniformBuffer, GeometryShaderReadSampledImageOrUniformTexelBuffer,
                  GeometryShaderReadOther, GeometryShaderWrite} ==>
              Info(a).stageMask == {GeometryShaderBit}
    ensures a in {FragmentShaderReadUniformBuffer, FragmentShaderReadSampledImageOrUniformTexelBuffer,
                  FragmentShaderReadColorInputAttachment, FragmentShaderReadDepthStencilInputAttachment,
                  FragmentShaderReadOther, FragmentShaderWrite} ==>
              Info(a).stageMask == {FragmentShaderBit}
    ensures a in {ComputeShaderReadUniformBuffer, ComputeShaderReadSampledImageOrUniformTexelBuffer,
                  ComputeShaderReadOther, ComputeShaderWrite} ==>
              Info(a).stageMask == {ComputeShaderBit}
  {
    match a
    case NoAccess =>
    case CommandBufferReadNvx =>
    case IndirectBuffer =>
    case IndexBuffer =>
    case VertexBuffer =>
    case VertexShaderReadUniformBuffer =>
    case VertexShaderReadSampledImageOrUniformTexelBuffer =>
    case VertexShaderReadOther =>
    case TessellationControlShaderReadUniformBuffer =>
    case TessellationControlShaderReadSampledImageOrUniformTexelBuffer =>
    case TessellationControlShaderReadOther =>
    case TessellationEvaluationShaderReadUniformBuffer =>
    case TessellationEvaluationShaderReadSampledImageOrUniformTexelBuffer =>
    case TessellationEvaluationShaderReadOther =>
    case GeometryShaderReadUniformBuffer =>
    case GeometryShaderReadSampledImageOrUniformTexelBuffer =>
    case GeometryShaderReadOther =>
    case FragmentShaderReadUniformBuffer =>
    case FragmentShaderReadSampledImageOrUniformTexelBuffer =>
    case FragmentShaderReadColorInputAttachment =>
    case FragmentShaderReadDepthStencilInputAttachment =>
    case FragmentShaderReadOther =>
    case ColorAttachmentRead =>
    case DepthStencilAttachmentRead =>
    case ComputeShaderReadUniformBuffer =>
    case ComputeShaderReadSampledImageOrUniformTexelBuffer =>
    case ComputeShaderReadOther =>
    case AnyShaderReadUniformBuffer =>
    case AnyShaderReadUniformBufferOrVertexBuffer =>
    case AnyShaderReadSampledImageOrUniformTexelBuffer =>
    case AnyShaderReadOther =>
    case TransferRead =>
    case HostRead =>
    case Present =>
    case CommandBufferWriteNvx =>
    case VertexShaderWrite =>
    case TessellationControlShaderWrite =>
    case TessellationEvaluationShaderWrite =>
    case GeometryShaderWrite =>
    case FragmentShaderWrite =>
    case ColorAttachmentWrite =>
    case DepthStencilAttachmentWrite =>
    case DepthAttachmentWriteStencilReadOnly =>
    case StencilAttachmentWriteDepthReadOnly =>
    case ComputeShaderWrite =>
    case AnyShaderWrite =>
    case TransferWrite =>
    case HostWrite =>
    case ColorAttachmentReadWrite =>
    case General =>
  }
}
