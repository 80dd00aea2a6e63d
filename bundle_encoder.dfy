/**
 * `RenderBundleEncoder::new`, `check_valid_to_use` and the errors `finish`
 * reports (third_party/rust/wgpu-core/src/command/bundle.rs).
 *
 * A texture format is reduced to the aspects it has: wgpu-hal's
 * `FormatAspects::from` is not part of this model, and neither is
 * `conv::is_power_of_two_u32`, which is modelled by `IsPowerOfTwo`.
 */
module BundleEncoder {
  import opened Wrappers
  import opened BundleCommands

  /** A texture format, as far as its aspects go. */
  datatype TextureFormat =
    | ColorFormat(code: nat)
    | DepthFormat(code: nat)
    | StencilFormat(code: nat)
    | DepthStencilFormat(code: nat)
  {
    predicate HasDepth() { DepthFormat? || DepthStencilFormat? }
    predicate HasStencil() { StencilFormat? || DepthStencilFormat? }
  }

  datatype RenderBundleDepthStencil = RenderBundleDepthStencil(format: TextureFormat, depthReadOnly: bool, stencilReadOnly: bool)

  datatype RenderBundleEncoderDescriptor = RenderBundleEncoderDescriptor(
    bundleLabel: Option<string>,
    colorFormats: seq<TextureFormat>,
    depthStencil: Option<RenderBundleDepthStencil>,
    sampleCount: U32,
    multiview: Option<nat>)

  /** The attachments a bundle is compatible with. */
  datatype RenderPassContext = RenderPassContext(
    colors: seq<TextureFormat>,
    depthStencil: Option<TextureFormat>,
    sampleCount: U32,
    multiview: Option<nat>)

  datatype RenderBundleEncoder = RenderBundleEncoder(
    base: BasePass,
    parentId: DeviceId,
    context: RenderPassContext,
    isDsReadOnly: bool)

  datatype CreateRenderBundleError = InvalidSampleCount(sampleCount: U32) | TooManyColorAttachments

  predicate IsPowerOfTwo(n: nat)
  {
    n == 1 || (n > 1 && n % 2 == 0 && IsPowerOfTwo(n / 2))
  }

  /** The sample counts `new` accepts. */
  predicate ValidSampleCount(sc: U32)
  {
    !(sc == 0 || sc > 32 || !IsPowerOfTwo(sc))
  }

  /** Exactly the sample counts 1, 2, 4, 8, 16 and 32 are accepted. */
  lemma ValidSampleCounts(sc: U32)
    ensures ValidSampleCount(sc) <==> sc in {1, 2, 4, 8, 16, 32}
  {
    if 2 < sc <= 32 && sc != 4 && sc != 8 && sc != 16 && sc != 32 {
      NotPowerOfTwoBetween(sc);
    }
  }

  /** The counts up to 32 that are not a power of two. */
  lemma NotPowerOfTwoBetween(n: nat)
    requires 2 < n <= 32 && n != 4 && n != 8 && n != 16 && n != 32
    ensures !IsPowerOfTwo(n)
  {
    if n % 2 == 0 {
      var h := n / 2;
      assert 1 < h <= 16;
      if h != 2 && h != 4 && h != 8 && h != 16 {
        NotPowerOfTwoBetween(h);
      }
    }
  }

  /**
   * The encoder's `is_ds_read_only`: with a depth-stencil attachment, every
   * aspect its format has must be flagged read-only.
   */
  function IsDsReadOnly(ds: Option<RenderBundleDepthStencil>): (r: bool)
    ensures ds.None? ==> !r
    ensures ds.Some? && !ds.value.format.HasDepth() && !ds.value.format.HasStencil() ==> r
    ensures ds.Some? && ds.value.format.DepthStencilFormat? ==> (r <==> ds.value.depthReadOnly && ds.value.stencilReadOnly)
    ensures ds.Some? && ds.value.format.DepthFormat? ==> (r <==> ds.value.depthReadOnly)
    ensures ds.Some? && ds.value.format.StencilFormat? ==> (r <==> ds.value.stencilReadOnly)
  {
    match ds
    case Some(d) =>
      (!d.format.HasDepth() || d.depthReadOnly) && (!d.format.HasStencil() || d.stencilReadOnly)
    case None => false
  }

  /**
   * `RenderBundleEncoder::new`: too many colour formats is reported first,
   * then an invalid sample count; otherwise the encoder records `base` (or
   * an empty pass carrying the label) against the descriptor's attachments.
   */
  function New(desc: RenderBundleEncoderDescriptor, parentId: DeviceId, base: Option<BasePass>): (r: Result<RenderBundleEncoder, CreateRenderBundleError>)
    ensures r == Err(TooManyColorAttachments) <==> |desc.colorFormats| > MAX_COLOR_TARGETS
    ensures r == Err(InvalidSampleCount(desc.sampleCount)) <==>
              |desc.colorFormats| <= MAX_COLOR_TARGETS && !ValidSampleCount(desc.sampleCount)
    ensures r.Ok? <==> |desc.colorFormats| <= MAX_COLOR_TARGETS && ValidSampleCount(desc.sampleCount)
    ensures r.Ok? ==>
              && r.value.parentId == parentId
              && r.value.base == (if base.Some? then base.value else BasePass(desc.bundleLabel, [], [], [], []))
              && r.value.context.colors == desc.colorFormats
              && r.value.context.depthStencil == (if desc.depthStencil.Some? then Some(desc.depthStencil.value.format) else None)
              && r.value.context.sampleCount == desc.sampleCount
              && r.value.context.multiview == desc.multiview
              && r.value.isDsReadOnly == IsDsReadOnly(desc.depthStencil)
  {
    if |desc.colorFormats| > MAX_COLOR_TARGETS then Err(TooManyColorAttachments)
    else if desc.sampleCount == 0 || desc.sampleCount > 32 || !IsPowerOfTwo(desc.sampleCount) then
      Err(InvalidSampleCount(desc.sampleCount))
    else
      Ok(RenderBundleEncoder(
        if base.Some? then base.value else BasePass(desc.bundleLabel, [], [], [], []),
        parentId,
        RenderPassContext(
          desc.colorFormats,
          if desc.depthStencil.Some? then Some(desc.depthStencil.value.format) else None,
          desc.sampleCount,
          desc.multiview),
        IsDsReadOnly(desc.depthStencil)))
  }

  datatype BufferUsage = IndexUsage | VertexUsage | IndirectUsage | UniformUsage | StorageUsage | CopyUsage

  /** `PassErrorScope`: the command a failure is reported against. */
  datatype PassErrorScope =
    | ScopeSetBindGroup(bindGroupId: BindGroupId)
    | ScopeSetPipelineRender(pipelineId: RenderPipelineId)
    | ScopeSetIndexBuffer(indexBufferId: BufferId)
    | ScopeSetVertexBuffer(vertexBufferId: BufferId)
    | ScopeSetPushConstant
    | ScopeDraw(indexed: bool, indirect: bool, pipeline: Option<RenderPipelineId>)

  datatype RenderCommandError =
    | InvalidBindGroup(bindGroupId: BindGroupId)
    | BindGroupIndexOutOfRange(index: nat, max: nat)
    | InvalidDynamicOffsetCount(actual: nat, expected: nat)
    | UnalignedBufferOffset(offset: nat, alignment: nat)
    | InvalidPipeline(pipelineId: RenderPipelineId)
    | IncompatiblePipelineTargets
    | IncompatiblePipelineRods
    | InvalidBuffer(bufferId: BufferId)
    | MissingBufferUsage(usageBufferId: BufferId, usage: BufferUsage)
    | PushConstantRangeRejected

  datatype DrawError =
    | MissingPipeline
    | VertexBeyondLimit(lastVertex: nat, vertexLimit: U32, vertexSlot: nat)
    | InstanceBeyondLimit(lastInstance: nat, instanceLimit: U32, instanceSlot: nat)
    | IndexBeyondLimit(lastIndex: nat, indexLimit: U32)

  datatype RenderBundleErrorInner =
    | NotValidToUse
    | CommandError(commandError: RenderCommandError)
    | DrawFailure(drawError: DrawError)
    | MissingIndirectExecution

  datatype RenderBundleError = RenderBundleError(scope: PassErrorScope, inner: RenderBundleErrorInner)

  /** `RenderBundleEncoder::check_valid_to_use`: only resources of the encoder's own device. */
  function CheckValidToUse(encoder: RenderBundleEncoder, deviceId: DeviceId): (r: Option<RenderBundleErrorInner>)
    ensures r.None? <==> deviceId == encoder.parentId
    ensures r.Some? ==> r.value == NotValidToUse
  {
    if deviceId != encoder.parentId then Some(NotValidToUse) else None
  }
}
