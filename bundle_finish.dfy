/**
 * `RenderBundleEncoder::finish` (third_party/rust/wgpu-core/src/command/bundle.rs):
 * validate every recorded command against the resources it names, replay
 * it on the simulated `State`, and emit a normalised command stream in
 * which state is only re-sent right before the draw that needs it.
 *
 * The hub's storages are maps from id to resource. Two helpers of the
 * source that live elsewhere are parameters: `validate` stands for
 * `PipelineLayout::validate_push_constant_ranges` and `split` for
 * `compute_nonoverlapping_ranges`. The alignment each dynamic binding needs
 * (`buffer_binding_type_alignment` under the device limits) is stored with
 * the bind group, and the pass-context compatibility check is equality.
 */
module BundleFinish {
  import opened Wrappers
  import opened BundleCommands
  import opened BundleState
  import opened BundleEncoder

  datatype Device = Device(maxBindGroups: nat, indirectExecution: bool)

  datatype BindGroup = BindGroup(deviceId: DeviceId, layoutId: BindGroupLayoutId, dynamicAlignments: seq<nat>)

  datatype RenderPipeline = RenderPipeline(
    deviceId: DeviceId,
    passContext: RenderPassContext,
    writesDepthStencil: bool,
    layoutId: PipelineLayoutId,
    stripIndexFormat: Option<IndexFormat>,
    vertexStrides: seq<(U64, VertexStepMode)>)

  datatype PipelineLayout = PipelineLayout(bindGroupLayoutIds: seq<BindGroupLayoutId>, pushConstantRanges: seq<PushConstantRange>)

  datatype Buffer = Buffer(deviceId: DeviceId, size: U64, usage: set<BufferUsage>)

  datatype Hub = Hub(
    pipelineLayouts: map<PipelineLayoutId, PipelineLayout>,
    bindGroups: map<BindGroupId, BindGroup>,
    renderPipelines: map<RenderPipelineId, RenderPipeline>,
    buffers: map<BufferId, Buffer>)

  /** What wgpu-core guarantees of its devices and resources before `finish` runs. */
  predicate HubWellFormed(hub: Hub, device: Device)
  {
    && device.maxBindGroups <= MAX_BIND_GROUPS
    && (forall id :: id in hub.renderPipelines ==> hub.renderPipelines[id].layoutId in hub.pipelineLayouts)
    && (forall id :: id in hub.pipelineLayouts ==> |hub.pipelineLayouts[id].bindGroupLayoutIds| <= MAX_BIND_GROUPS)
    && (forall id, k :: id in hub.bindGroups && 0 <= k < |hub.bindGroups[id].dynamicAlignments| ==>
          hub.bindGroups[id].dynamicAlignments[k] > 0)
  }

  /** The checks on a `SetBindGroup` that come before its dynamic offsets, in source order. */
  function BindGroupCheck(enc: RenderBundleEncoder, device: Device, hub: Hub, index: U8, id: BindGroupId): (r: Option<RenderBundleErrorInner>)
    ensures r.None? <==> id in hub.bindGroups && hub.bindGroups[id].deviceId == enc.parentId && index < device.maxBindGroups
    ensures id !in hub.bindGroups ==> r == Some(CommandError(InvalidBindGroup(id)))
    ensures id in hub.bindGroups && hub.bindGroups[id].deviceId != enc.parentId ==> r == Some(NotValidToUse)
    ensures id in hub.bindGroups && hub.bindGroups[id].deviceId == enc.parentId && index >= device.maxBindGroups ==>
              r == Some(CommandError(BindGroupIndexOutOfRange(index, device.maxBindGroups)))
  {
    if id !in hub.bindGroups then Some(CommandError(InvalidBindGroup(id)))
    else if CheckValidToUse(enc, hub.bindGroups[id].deviceId).Some? then CheckValidToUse(enc, hub.bindGroups[id].deviceId)
    else if index >= device.maxBindGroups then Some(CommandError(BindGroupIndexOutOfRange(index, device.maxBindGroups)))
    else None
  }

  /** The checks on a `SetPipeline`, in source order. */
  function PipelineCheck(enc: RenderBundleEncoder, hub: Hub, id: RenderPipelineId): (r: Option<RenderBundleErrorInner>)
    ensures r.None? <==>
              && id in hub.renderPipelines && hub.renderPipelines[id].deviceId == enc.parentId
              && hub.renderPipelines[id].passContext == enc.context
              && !(hub.renderPipelines[id].writesDepthStencil && enc.isDsReadOnly)
    ensures id !in hub.renderPipelines ==> r == Some(CommandError(InvalidPipeline(id)))
    ensures id in hub.renderPipelines && hub.renderPipelines[id].deviceId != enc.parentId ==> r == Some(NotValidToUse)
    ensures (id in hub.renderPipelines && hub.renderPipelines[id].deviceId == enc.parentId
             && hub.renderPipelines[id].passContext != enc.context) ==> r == Some(CommandError(IncompatiblePipelineTargets))
  {
    if id !in hub.renderPipelines then Some(CommandError(InvalidPipeline(id)))
    else
      var p := hub.renderPipelines[id];
      if CheckValidToUse(enc, p.deviceId).Some? then CheckValidToUse(enc, p.deviceId)
      else if p.passContext != enc.context then Some(CommandError(IncompatiblePipelineTargets))
      else if p.writesDepthStencil && enc.isDsReadOnly then Some(CommandError(IncompatiblePipelineRods))
      else None
  }

  /** The checks on a buffer a command binds for `usage`, in source order. */
  function BufferCheck(enc: RenderBundleEncoder, hub: Hub, id: BufferId, usage: BufferUsage): (r: Option<RenderBundleErrorInner>)
    ensures r.None? <==> id in hub.buffers && hub.buffers[id].deviceId == enc.parentId && usage in hub.buffers[id].usage
    ensures id !in hub.buffers ==> r == Some(CommandError(InvalidBuffer(id)))
    ensures id in hub.buffers && hub.buffers[id].deviceId != enc.parentId ==> r == Some(NotValidToUse)
    ensures id in hub.buffers && hub.buffers[id].deviceId == enc.parentId && usage !in hub.buffers[id].usage ==>
              r == Some(CommandError(MissingBufferUsage(id, usage)))
  {
    if id !in hub.buffers then Some(CommandError(InvalidBuffer(id)))
    else if CheckValidToUse(enc, hub.buffers[id].deviceId).Some? then CheckValidToUse(enc, hub.buffers[id].deviceId)
    else if usage !in hub.buffers[id].usage then Some(CommandError(MissingBufferUsage(id, usage)))
    else None
  }

  /**
   * The checks on a `SetPushConstant`: a pipeline must have been set, and its
   * layout must accept `offset..offset + size` (a `u32` sum, which wraps).
   */
  function PushConstantCheck(hub: Hub, layoutId: Option<PipelineLayoutId>,
                             validate: (PipelineLayout, ShaderStages, U32, U32) -> bool,
                             stages: ShaderStages, offset: U32, sizeBytes: U32): (r: Option<RenderBundleErrorInner>)
    requires layoutId.Some? ==> layoutId.value in hub.pipelineLayouts
    ensures layoutId.None? ==> r == Some(DrawFailure(MissingPipeline))
    ensures layoutId.Some? ==>
              (r.None? <==> validate(hub.pipelineLayouts[layoutId.value], stages, offset, WrappingAddU32(offset, sizeBytes)))
    ensures r.Some? ==> r.value in {DrawFailure(MissingPipeline), CommandError(PushConstantRangeRejected)}
  {
    if layoutId.None? then Some(DrawFailure(MissingPipeline))
    else if !validate(hub.pipelineLayouts[layoutId.value], stages, offset, WrappingAddU32(offset, sizeBytes)) then
      Some(CommandError(PushConstantRangeRejected))
    else None
  }

  predicate Misaligned(offset: nat, alignment: nat)
  {
    alignment > 0 && offset % alignment != 0
  }

  /** Index `k` holds the first offset that is not a multiple of its alignment. */
  predicate IsFirstMisaligned(offsets: seq<DynamicOffset>, alignments: seq<nat>, k: nat)
  {
    && k < |offsets| && k < |alignments| && Misaligned(offsets[k], alignments[k])
    && forall j :: 0 <= j < k && j < |alignments| ==> !Misaligned(offsets[j], alignments[j])
  }

  /** The first index from `from` on whose offset is not a multiple of its alignment, if any. */
  function FirstMisaligned(offsets: seq<DynamicOffset>, alignments: seq<nat>, from: nat): (r: Option<nat>)
    requires |offsets| == |alignments| && from <= |offsets|
    ensures r.None? <==> forall k :: from <= k < |offsets| ==> !Misaligned(offsets[k], alignments[k])
    ensures r.Some? ==>
              && from <= r.value < |offsets| && Misaligned(offsets[r.value], alignments[r.value])
              && forall j :: from <= j < r.value ==> !Misaligned(offsets[j], alignments[j])
    decreases |offsets| - from
  {
    if from == |offsets| then None
    else if Misaligned(offsets[from], alignments[from]) then Some(from)
    else FirstMisaligned(offsets, alignments, from + 1)
  }

  /** The alignment loop of `SetBindGroup`: the first misaligned offset, if any. */
  method FindMisaligned(offsets: seq<DynamicOffset>, alignments: seq<nat>) returns (r: Option<nat>)
    requires |offsets| == |alignments|
    ensures r.None? <==> forall k :: 0 <= k < |offsets| ==> !Misaligned(offsets[k], alignments[k])
    ensures r.Some? ==> IsFirstMisaligned(offsets, alignments, r.value)
    ensures r == FirstMisaligned(offsets, alignments, 0)
  {
    for k := 0 to |offsets|
      invariant forall j :: 0 <= j < k ==> !Misaligned(offsets[j], alignments[j])
      invariant FirstMisaligned(offsets, alignments, k) == FirstMisaligned(offsets, alignments, 0)
    {
      if Misaligned(offsets[k], alignments[k]) {
        return Some(k);
      }
    }
    return None;
  }

  // ------------------------------------------------------------ draw limits

  /**
   * The limit checks of a `Draw`, vertices first: `first + count` may not
   * pass the shortest bound buffer of each step mode. The sums are exact.
   */
  function DrawLimitError(limits: VertexLimitState, firstVertex: U32, vertexCount: U32, firstInstance: U32, instanceCount: U32): (r: Option<DrawError>)
    ensures r.None? <==> firstVertex + vertexCount <= limits.vertexLimit && firstInstance + instanceCount <= limits.instanceLimit
    ensures firstVertex + vertexCount > limits.vertexLimit ==>
              r == Some(VertexBeyondLimit(firstVertex + vertexCount, limits.vertexLimit, limits.vertexLimitSlot))
    ensures firstVertex + vertexCount <= limits.vertexLimit && firstInstance + instanceCount > limits.instanceLimit ==>
              r == Some(InstanceBeyondLimit(firstInstance + instanceCount, limits.instanceLimit, limits.instanceLimitSlot))
  {
    if firstVertex + vertexCount > limits.vertexLimit then
      Some(VertexBeyondLimit(firstVertex + vertexCount, limits.vertexLimit, limits.vertexLimitSlot))
    else if firstInstance + instanceCount > limits.instanceLimit then
      Some(InstanceBeyondLimit(firstInstance + instanceCount, limits.instanceLimit, limits.instanceLimitSlot))
    else None
  }

  /** The same checks as the source writes them: `u32` sums, which wrap. */
  function DrawLimitErrorAsWritten(limits: VertexLimitState, firstVertex: U32, vertexCount: U32, firstInstance: U32, instanceCount: U32): (r: Option<DrawError>)
    ensures r.None? <==> WrappingAddU32(firstVertex, vertexCount) <= limits.vertexLimit
                         && WrappingAddU32(firstInstance, instanceCount) <= limits.instanceLimit
  {
    var lastVertex := WrappingAddU32(firstVertex, vertexCount);
    var lastInstance := WrappingAddU32(firstInstance, instanceCount);
    if lastVertex > limits.vertexLimit then
      Some(VertexBeyondLimit(lastVertex, limits.vertexLimit, limits.vertexLimitSlot))
    else if lastInstance > limits.instanceLimit then
      Some(InstanceBeyondLimit(lastInstance, limits.instanceLimit, limits.instanceLimitSlot))
    else None
  }

  /**
   * With no room for any vertex (a bound buffer shorter than one stride), a
   * draw of one vertex starting at `u32::MAX` wraps to 0 and passes the
   * check as written; the exact check rejects it.
   */
  lemma DrawLimitWrapAdmitsOverflow()
    ensures var limits := NO_VERTEX_LIMITS.(vertexLimit := 0);
      && DrawLimitErrorAsWritten(limits, U32_MAX, 1, 0, 1).None?
      && DrawLimitError(limits, U32_MAX, 1, 0, 1) == Some(VertexBeyondLimit(U32_MAX + 1, 0, 0))
  {
  }

  /** Whenever no sum wraps, the check as written and the exact check agree. */
  lemma DrawLimitAgreesWithoutWrap(limits: VertexLimitState, firstVertex: U32, vertexCount: U32, firstInstance: U32, instanceCount: U32)
    requires firstVertex + vertexCount <= U32_MAX && firstInstance + instanceCount <= U32_MAX
    ensures DrawLimitErrorAsWritten(limits, firstVertex, vertexCount, firstInstance, instanceCount)
            == DrawLimitError(limits, firstVertex, vertexCount, firstInstance, instanceCount)
  {
  }

  /** The limit checks of a `DrawIndexed`, indices first, with exact sums. */
  function IndexedDrawLimitError(indexLimit: U32, limits: VertexLimitState, firstIndex: U32, indexCount: U32, firstInstance: U32, instanceCount: U32): (r: Option<DrawError>)
    ensures r.None? <==> firstIndex + indexCount <= indexLimit && firstInstance + instanceCount <= limits.instanceLimit
    ensures firstIndex + indexCount > indexLimit ==> r == Some(IndexBeyondLimit(firstIndex + indexCount, indexLimit))
    ensures firstIndex + indexCount <= indexLimit && firstInstance + instanceCount > limits.instanceLimit ==>
              r == Some(InstanceBeyondLimit(firstInstance + instanceCount, limits.instanceLimit, limits.instanceLimitSlot))
  {
    if firstIndex + indexCount > indexLimit then Some(IndexBeyondLimit(firstIndex + indexCount, indexLimit))
    else if firstInstance + instanceCount > limits.instanceLimit then
      Some(InstanceBeyondLimit(firstInstance + instanceCount, limits.instanceLimit, limits.instanceLimitSlot))
    else None
  }

  /** The indexed checks as the source writes them, with wrapping `u32` sums. */
  function IndexedDrawLimitErrorAsWritten(indexLimit: U32, limits: VertexLimitState, firstIndex: U32, indexCount: U32, firstInstance: U32, instanceCount: U32): (r: Option<DrawError>)
    ensures r.None? <==> WrappingAddU32(firstIndex, indexCount) <= indexLimit
                         && WrappingAddU32(firstInstance, instanceCount) <= limits.instanceLimit
  {
    var lastIndex := WrappingAddU32(firstIndex, indexCount);
    var lastInstance := WrappingAddU32(firstInstance, instanceCount);
    if lastIndex > indexLimit then Some(IndexBeyondLimit(lastIndex, indexLimit))
    else if lastInstance > limits.instanceLimit then
      Some(InstanceBeyondLimit(lastInstance, limits.instanceLimit, limits.instanceLimitSlot))
    else None
  }

  /**
   * With a two-index buffer bound, drawing two indices from index
   * `u32::MAX` wraps to 1 and passes the check as written; the exact check
   * rejects it.
   */
  lemma IndexedDrawLimitWrapAdmitsOverflow()
    ensures && IndexedDrawLimitErrorAsWritten(2, NO_VERTEX_LIMITS, U32_MAX, 2, 0, 1).None?
            && IndexedDrawLimitError(2, NO_VERTEX_LIMITS, U32_MAX, 2, 0, 1) == Some(IndexBeyondLimit(U32_MAX + 2, 2))
  {
  }

  // ------------------------------------------------------------------ arms

  datatype StepResult = Continue | Stop(error: RenderBundleError) | Panic

  /** What `finish` keeps true of its `State` between commands. */
  ghost predicate Tracking(state: State, dynLen: nat)
    reads state, state.bind
  {
    && state.Valid()
    && BindTableWellFormed(state.bind[..], dynLen)
    && (state.index.isDirty ==> state.index.buffer.Some?)
  }

  /** The fields of a `State`, as one value. */
  datatype Snapshot = Snapshot(
    index: IndexState,
    vertex: seq<VertexState>,
    bind: seq<Option<BindState>>,
    pushConstants: PushConstantState,
    flatDynamicOffsets: seq<DynamicOffset>,
    usedBindGroups: nat,
    pipeline: Option<RenderPipelineId>)

  function SnapshotOf(state: State): Snapshot
    reads state, state.vertex, state.bind
  {
    Snapshot(state.index, state.vertex[..], state.bind[..], state.pushConstants,
             state.flatDynamicOffsets, state.usedBindGroups, state.pipeline)
  }

  /** The snapshot of the `State` `finish` starts from. */
  function Start(): Snapshot
  {
    Snapshot(NEW_INDEX_STATE, seq(MAX_VERTEX_BUFFERS, i => NEW_VERTEX_STATE),
             seq(MAX_BIND_GROUPS, i => None), NEW_PUSH_CONSTANT_STATE, [], 0, None)
  }

  /** `Tracking`, on a snapshot. */
  predicate Tracked(s: Snapshot, dynLen: nat)
  {
    && |s.vertex| == MAX_VERTEX_BUFFERS && |s.bind| == MAX_BIND_GROUPS && s.usedBindGroups <= MAX_BIND_GROUPS
    && BindTableWellFormed(s.bind, dynLen)
    && (s.index.isDirty ==> s.index.buffer.Some?)
  }

  /** What an arm of `finish` does, as a value: its verdict, the commands it emits, the state it leaves. */
  datatype Move = Move(result: StepResult, emitted: seq<RenderCommand>, state: Snapshot)

  /** The `SetBindGroup` arm on snapshot `s`, with `next` offsets consumed so far. */
  function SetBindGroupMove(enc: RenderBundleEncoder, device: Device, hub: Hub, s: Snapshot,
                            next: nat, index: U8, num: U8, id: BindGroupId): Move
    requires HubWellFormed(hub, device) && Tracked(s, |enc.base.dynamicOffsets|)
  {
    var scope := ScopeSetBindGroup(id);
    var check := BindGroupCheck(enc, device, hub, index, id);
    if check.Some? then Move(Stop(RenderBundleError(scope, check.value)), [], s)
    else
      var dyn := enc.base.dynamicOffsets;
      var alignments := hub.bindGroups[id].dynamicAlignments;
      if next + num > |dyn| then Move(Panic, [], s)
      else if |alignments| != num then
        Move(Stop(RenderBundleError(scope, CommandError(InvalidDynamicOffsetCount(num, |alignments|)))), [], s)
      else match FirstMisaligned(dyn[next..next + num], alignments, 0)
        case Some(k) =>
          Move(Stop(RenderBundleError(scope, CommandError(UnalignedBufferOffset(dyn[next + k], alignments[k])))), [], s)
        case None =>
          Move(Continue, [], s.(bind := BindGroupSet(s.bind, index, id, hub.bindGroups[id].layoutId, OffsetRange(next, next + num))))
  }

  /** The `SetBindGroup` arm of `finish`. */
  method SetBindGroupArm(enc: RenderBundleEncoder, device: Device, hub: Hub, state: State,
                         next: nat, index: U8, num: U8, id: BindGroupId)
    returns (step: StepResult, nextOut: nat)
    requires HubWellFormed(hub, device) && Tracking(state, |enc.base.dynamicOffsets|)
    modifies state.bind
    ensures Tracking(state, |enc.base.dynamicOffsets|)
    ensures var m := SetBindGroupMove(enc, device, hub, old(SnapshotOf(state)), next, index, num, id);
              step == m.result && (step.Continue? ==> SnapshotOf(state) == m.state)
    ensures BindGroupCheck(enc, device, hub, index, id).Some? ==>
              step == Stop(RenderBundleError(ScopeSetBindGroup(id), BindGroupCheck(enc, device, hub, index, id).value))
    ensures BindGroupCheck(enc, device, hub, index, id).None? ==>
              var dyn := enc.base.dynamicOffsets;
              var alignments := hub.bindGroups[id].dynamicAlignments;
              && (next + num > |dyn| ==> step.Panic?)
              && (next + num <= |dyn| && |alignments| != num ==>
                    step == Stop(RenderBundleError(ScopeSetBindGroup(id), CommandError(InvalidDynamicOffsetCount(num, |alignments|)))))
              && (next + num <= |dyn| && |alignments| == num ==>
                    && (step.Continue? <==> forall k :: 0 <= k < num ==> !Misaligned(dyn[next + k], alignments[k]))
                    && (forall k: nat :: IsFirstMisaligned(dyn[next..next + num], alignments, k) ==>
                          step == Stop(RenderBundleError(ScopeSetBindGroup(id),
                                         CommandError(UnalignedBufferOffset(dyn[next + k], alignments[k]))))))
    ensures step.Continue? ==>
              && BindGroupCheck(enc, device, hub, index, id).None? && nextOut == next + num
              && state.bind[..] == BindGroupSet(old(state.bind[..]), index, id, hub.bindGroups[id].layoutId, OffsetRange(next, next + num))
  {
    ghost var m := SetBindGroupMove(enc, device, hub, SnapshotOf(state), next, index, num, id);
    nextOut := next;
    var check := BindGroupCheck(enc, device, hub, index, id);
    if check.Some? {
      return Stop(RenderBundleError(ScopeSetBindGroup(id), check.value)), nextOut;
    }
    var bindGroup := hub.bindGroups[id];
    var range := OffsetRange(next, next + num);
    nextOut := range.end;
    if range.end > |enc.base.dynamicOffsets| {
      return Panic, nextOut;
    }
    var offsets := enc.base.dynamicOffsets[range.start..range.end];
    if |bindGroup.dynamicAlignments| != |offsets| {
      return Stop(RenderBundleError(ScopeSetBindGroup(id), CommandError(InvalidDynamicOffsetCount(|offsets|, |bindGroup.dynamicAlignments|)))), nextOut;
    }
    var misaligned := FindMisaligned(offsets, bindGroup.dynamicAlignments);
    if misaligned.Some? {
      var k := misaligned.value;
      assert offsets == enc.base.dynamicOffsets[next..next + num];
      forall j | IsFirstMisaligned(offsets, bindGroup.dynamicAlignments, j)
        ensures j == k
      {
      }
      assert m.result == Stop(RenderBundleError(ScopeSetBindGroup(id),
                              CommandError(UnalignedBufferOffset(offsets[k], bindGroup.dynamicAlignments[k]))));
      return Stop(RenderBundleError(ScopeSetBindGroup(id),
                    CommandError(UnalignedBufferOffset(offsets[k], bindGroup.dynamicAlignments[k])))), nextOut;
    }
    assert forall k :: 0 <= k < num ==> offsets[k] == enc.base.dynamicOffsets[next + k];
    BindGroupSetWellFormed(state.bind[..], index, id, bindGroup.layoutId, range, |enc.base.dynamicOffsets|);
    assert m.result == Continue && m.state == SnapshotOf(state).(bind := BindGroupSet(state.bind[..], index, id, bindGroup.layoutId, range));
    state.SetBindGroup(index, id, bindGroup.layoutId, range);
    step := Continue;
  }

  /** `set_pipeline` keeps the bind table well formed. */
  lemma PipelineReboundWellFormed(b: seq<Option<BindState>>, changed: bool, ids: seq<BindGroupLayoutId>, dynLen: nat)
    requires BindTableWellFormed(b, dynLen)
    ensures BindTableWellFormed(PipelineRebound(b, changed, ids), dynLen)
  {
    var r := PipelineRebound(b, changed, ids);
    forall i | 0 <= i < |r| && r[i].Some?
      ensures r[i].value.OffsetsWithin(dynLen)
    {
      PipelineReboundDirties(b, changed, ids, i);
    }
  }

  /** The slots after the `set_pipeline` zip with the new pipeline's strides. */
  function Restrided(v: seq<VertexState>, strides: seq<(U64, VertexStepMode)>): (r: seq<VertexState>)
    ensures |r| == |v|
    ensures forall i :: 0 <= i < |v| ==> r[i] == if i < |strides| then v[i].Restride(strides[i].0, strides[i].1) else v[i]
  {
    seq(|v|, i requires 0 <= i < |v| => if i < |strides| then v[i].Restride(strides[i].0, strides[i].1) else v[i])
  }

  /** The `SetPipeline` arm on snapshot `s`. */
  function SetPipelineMove(enc: RenderBundleEncoder, device: Device, hub: Hub,
                           split: seq<PushConstantRange> -> seq<PushConstantRange>, s: Snapshot, id: RenderPipelineId): Move
    requires HubWellFormed(hub, device)
  {
    var t := s.(pipeline := Some(id));
    var check := PipelineCheck(enc, hub, id);
    if check.Some? then Move(Stop(RenderBundleError(ScopeSetPipelineRender(id), check.value)), [], t)
    else
      var p := hub.renderPipelines[id];
      var layout := hub.pipelineLayouts[p.layoutId];
      var (pushConstants, changed) := t.pushConstants.SetPushConstants(layout.pushConstantRanges);
      Move(Continue,
           [SetPipeline(id)] + (if pushConstants.isDirty then pushConstants.Flush(split).value else []),
           t.(index := t.index.(pipelineFormat := p.stripIndexFormat),
              vertex := Restrided(t.vertex, p.vertexStrides),
              pushConstants := pushConstants,
              usedBindGroups := |layout.bindGroupLayoutIds|,
              bind := PipelineRebound(t.bind, changed, layout.bindGroupLayoutIds)))
  }

  /** The `SetPipeline` arm of `finish`. */
  method SetPipelineArm(enc: RenderBundleEncoder, device: Device, hub: Hub,
                        split: seq<PushConstantRange> -> seq<PushConstantRange>, state: State, id: RenderPipelineId)
    returns (step: StepResult, emitted: seq<RenderCommand>, layoutId: Option<PipelineLayoutId>)
    requires HubWellFormed(hub, device) && Tracking(state, |enc.base.dynamicOffsets|)
    modifies state, state.vertex, state.bind
    ensures Tracking(state, |enc.base.dynamicOffsets|)
    ensures var m := SetPipelineMove(enc, device, hub, split, old(SnapshotOf(state)), id);
              step == m.result && (step.Continue? ==> emitted == m.emitted && SnapshotOf(state) == m.state)
    ensures state.pipeline == Some(id)
    ensures PipelineCheck(enc, hub, id).Some? ==>
              step == Stop(RenderBundleError(ScopeSetPipelineRender(id), PipelineCheck(enc, hub, id).value))
    ensures PipelineCheck(enc, hub, id).None? ==>
              var p := hub.renderPipelines[id];
              var layout := hub.pipelineLayouts[p.layoutId];
              var (pushConstants, changed) := old(state.pushConstants).SetPushConstants(layout.pushConstantRanges);
              && step.Continue? && layoutId == Some(p.layoutId)
              && state.index == old(state.index).(pipelineFormat := p.stripIndexFormat)
              && (forall i :: 0 <= i < state.vertex.Length ==>
                    state.vertex[i] == if i < |p.vertexStrides| then old(state.vertex[i]).Restride(p.vertexStrides[i].0, p.vertexStrides[i].1)
                                       else old(state.vertex[i]))
              && state.pushConstants == pushConstants
              && state.usedBindGroups == |layout.bindGroupLayoutIds|
              && state.bind[..] == PipelineRebound(old(state.bind[..]), changed, layout.bindGroupLayoutIds)
              && emitted == [SetPipeline(id)] + (if pushConstants.isDirty then pushConstants.Flush(split).value else [])
              && state.flatDynamicOffsets == old(state.flatDynamicOffsets)
    ensures step.Continue? ==> Recorded(emitted) == [SetPipeline(id)] && DynamicOffsetCount(emitted) == 0
  {
    ghost var s0 := SnapshotOf(state);
    ghost var m := SetPipelineMove(enc, device, hub, split, s0, id);
    emitted := [];
    layoutId := None;
    state.pipeline := Some(id);
    var check := PipelineCheck(enc, hub, id);
    if check.Some? {
      return Stop(RenderBundleError(ScopeSetPipelineRender(id), check.value)), emitted, layoutId;
    }
    var pipeline := hub.renderPipelines[id];
    var layout := hub.pipelineLayouts[pipeline.layoutId];
    layoutId := Some(pipeline.layoutId);
    PipelineReboundWellFormed(state.bind[..], state.pushConstants.SetPushConstants(layout.pushConstantRanges).1,
                              layout.bindGroupLayoutIds, |enc.base.dynamicOffsets|);
    state.SetPipeline(pipeline.stripIndexFormat, pipeline.vertexStrides, layout.bindGroupLayoutIds, layout.pushConstantRanges);
    assert state.vertex[..] == Restrided(s0.vertex, pipeline.vertexStrides);
    assert m.state == SnapshotOf(state);
    var clears := state.pushConstants.Flush(split);
    emitted := [SetPipeline(id)] + (if clears.Some? then clears.value else []);
    var tail := if clears.Some? then clears.value else [];
    UnrecordedVanish(tail);
    NoBindGroupsNoOffsets(tail);
    RecordedAppend([SetPipeline(id)], tail);
    DynamicOffsetCountAppend([SetPipeline(id)], tail);
    assert [SetPipeline(id)][..0] == [];
    step := Continue;
  }

  /** The `SetIndexBuffer` arm on snapshot `s`. */
  function SetIndexBufferMove(enc: RenderBundleEncoder, hub: Hub, s: Snapshot,
                              id: BufferId, format: IndexFormat, offset: U64, size: Option<U64>): Move
  {
    var check := BufferCheck(enc, hub, id, IndexUsage);
    if check.Some? then Move(Stop(RenderBundleError(ScopeSetIndexBuffer(id), check.value)), [], s)
    else
      var range := BufferRange(offset, BufferEnd(offset, size, hub.buffers[id].size));
      Move(Continue, [], s.(index := s.index.SetFormat(format).SetBuffer(id, range)))
  }

  /** The `SetIndexBuffer` arm of `finish`. */
  method SetIndexBufferArm(enc: RenderBundleEncoder, hub: Hub, state: State,
                           id: BufferId, format: IndexFormat, offset: U64, size: Option<U64>)
    returns (step: StepResult)
    requires Tracking(state, |enc.base.dynamicOffsets|)
    modifies state`index
    ensures Tracking(state, |enc.base.dynamicOffsets|)
    ensures var m := SetIndexBufferMove(enc, hub, old(SnapshotOf(state)), id, format, offset, size);
              step == m.result && (step.Continue? ==> SnapshotOf(state) == m.state)
    ensures BufferCheck(enc, hub, id, IndexUsage).Some? ==>
              step == Stop(RenderBundleError(ScopeSetIndexBuffer(id), BufferCheck(enc, hub, id, IndexUsage).value))
    ensures BufferCheck(enc, hub, id, IndexUsage).None? ==>
              && step.Continue?
              && state.index == old(state.index).SetFormat(format).SetBuffer(id, BufferRange(offset, BufferEnd(offset, size, hub.buffers[id].size)))
  {
    var check := BufferCheck(enc, hub, id, IndexUsage);
    if check.Some? {
      return Stop(RenderBundleError(ScopeSetIndexBuffer(id), check.value));
    }
    var end := BufferEnd(offset, size, hub.buffers[id].size);
    state.index := state.index.SetFormat(format).SetBuffer(id, BufferRange(offset, end));
    step := Continue;
  }

  /** The `SetVertexBuffer` arm on snapshot `s`. */
  function SetVertexBufferMove(enc: RenderBundleEncoder, hub: Hub, s: Snapshot,
                               slot: U32, id: BufferId, offset: U64, size: Option<U64>): Move
    requires |s.vertex| == MAX_VERTEX_BUFFERS
  {
    var check := BufferCheck(enc, hub, id, VertexUsage);
    if check.Some? then Move(Stop(RenderBundleError(ScopeSetVertexBuffer(id), check.value)), [], s)
    else if slot >= MAX_VERTEX_BUFFERS then Move(Panic, [], s)
    else
      var range := BufferRange(offset, BufferEnd(offset, size, hub.buffers[id].size));
      Move(Continue, [], s.(vertex := s.vertex[slot := s.vertex[slot].SetBuffer(id, range)]))
  }

  /** The `SetVertexBuffer` arm of `finish`; a slot past the last one panics. */
  method SetVertexBufferArm(enc: RenderBundleEncoder, hub: Hub, state: State,
                            slot: U32, id: BufferId, offset: U64, size: Option<U64>)
    returns (step: StepResult)
    requires Tracking(state, |enc.base.dynamicOffsets|)
    modifies state.vertex
    ensures Tracking(state, |enc.base.dynamicOffsets|)
    ensures var m := SetVertexBufferMove(enc, hub, old(SnapshotOf(state)), slot, id, offset, size);
              step == m.result && (step.Continue? ==> SnapshotOf(state) == m.state)
    ensures BufferCheck(enc, hub, id, VertexUsage).Some? ==>
              step == Stop(RenderBundleError(ScopeSetVertexBuffer(id), BufferCheck(enc, hub, id, VertexUsage).value))
    ensures BufferCheck(enc, hub, id, VertexUsage).None? && slot >= MAX_VERTEX_BUFFERS ==> step.Panic?
    ensures BufferCheck(enc, hub, id, VertexUsage).None? && slot < MAX_VERTEX_BUFFERS ==>
              && step.Continue?
              && state.vertex[..] == old(state.vertex[..])[slot := old(state.vertex[slot]).SetBuffer(id, BufferRange(offset, BufferEnd(offset, size, hub.buffers[id].size)))]
  {
    var check := BufferCheck(enc, hub, id, VertexUsage);
    if check.Some? {
      return Stop(RenderBundleError(ScopeSetVertexBuffer(id), check.value));
    }
    var end := BufferEnd(offset, size, hub.buffers[id].size);
    if slot >= state.vertex.Length {
      return Panic;
    }
    state.vertex[slot] := state.vertex[slot].SetBuffer(id, BufferRange(offset, end));
    step := Continue;
  }

  /** The commands the flushes before a draw emit: index (for indexed draws), vertices, bind groups. */
  function FlushedCommands(index: IndexState, v: seq<VertexState>, b: seq<Option<BindState>>, used: nat, dynLen: nat, withIndex: bool): seq<RenderCommand>
    requires index.isDirty ==> index.buffer.Some?
    requires VerticesFlushable(v) && |v| <= 0x1_0000_0000
    requires BindTableWellFormed(b, dynLen) && used <= |b| <= 0x100
  {
    (if withIndex && index.isDirty then [index.Command()] else [])
    + VertexFlushCommands(v)
    + BindFlushCommands(b[..used], dynLen)
  }

  /**
   * The flushes before a draw generate state only: nothing that counts as
   * a recorded command, and exactly as many dynamic offsets as they append.
   */
  lemma FlushedCommandsAreState(index: IndexState, v: seq<VertexState>, b: seq<Option<BindState>>, used: nat, dyn: seq<DynamicOffset>, withIndex: bool)
    requires index.isDirty ==> index.buffer.Some?
    requires VerticesFlushable(v) && |v| <= 0x1_0000_0000
    requires BindTableWellFormed(b, |dyn|) && used <= |b| <= 0x100
    ensures var cs := FlushedCommands(index, v, b, used, |dyn|, withIndex);
      Recorded(cs) == [] && DynamicOffsetCount(cs) == |DirtyOffsets(b[..used], dyn)|
  {
    var ic := if withIndex && index.isDirty then [index.Command()] else [];
    var vc := VertexFlushCommands(v);
    assert BindTableWellFormed(b[..used], |dyn|);
    var bc := BindFlushCommands(b[..used], |dyn|);
    assert FlushedCommands(index, v, b, used, |dyn|, withIndex) == ic + vc + bc;
    VertexFlushIsStateOnly(v);
    BindFlushIsStateOnly(b[..used], |dyn|);
    UnrecordedVanish(ic);
    RecordedAppend(ic, vc);
    RecordedAppend(ic + vc, bc);
    NoBindGroupsNoOffsets(ic);
    DynamicOffsetCountAppend(ic, vc);
    DynamicOffsetCountAppend(ic + vc, bc);
    DirtyOffsetsMatchCommands(b[..used], dyn);
  }

  lemma VertexFlushIsStateOnly(v: seq<VertexState>)
    requires VerticesFlushable(v) && |v| <= 0x1_0000_0000
    ensures Recorded(VertexFlushCommands(v)) == [] && DynamicOffsetCount(VertexFlushCommands(v)) == 0
  {
    VertexFlushCommandsAreDirtySlots(v);
    UnrecordedVanish(VertexFlushCommands(v));
    NoBindGroupsNoOffsets(VertexFlushCommands(v));
  }

  lemma BindFlushIsStateOnly(b: seq<Option<BindState>>, dynLen: nat)
    requires BindTableWellFormed(b, dynLen) && |b| <= 0x100
    ensures Recorded(BindFlushCommands(b, dynLen)) == []
  {
    BindFlushCommandsAreDirtyEntries(b, dynLen);
    UnrecordedVanish(BindFlushCommands(b, dynLen));
  }

  /** Run the flushes before a draw; an unbound dirty vertex slot makes `flush` unwrap `None`. */
  method FlushForDraw(state: State, dyn: seq<DynamicOffset>, withIndex: bool) returns (panicked: bool, cmds: seq<RenderCommand>)
    requires Tracking(state, |dyn|)
    modifies state`index, state`flatDynamicOffsets, state.vertex, state.bind
    ensures Tracking(state, |dyn|)
    ensures panicked <==> !VerticesFlushable(old(state.vertex[..]))
    ensures !panicked ==>
              && cmds == FlushedCommands(old(state.index), old(state.vertex[..]), old(state.bind[..]), state.usedBindGroups, |dyn|, withIndex)
              && state.index == (if withIndex then old(state.index).(isDirty := false) else old(state.index))
              && state.vertex[..] == CleanedVertices(old(state.vertex[..]))
              && state.bind[..] == CleanedBinds(old(state.bind[..]), state.usedBindGroups)
              && state.flatDynamicOffsets == old(state.flatDynamicOffsets) + DirtyOffsets(old(state.bind[..])[..state.usedBindGroups], dyn)
              && Recorded(cmds) == []
              && |state.flatDynamicOffsets| == |old(state.flatDynamicOffsets)| + DynamicOffsetCount(cmds)
              && SnapshotOf(state) == Flushed(old(SnapshotOf(state)), dyn, withIndex)
  {
    cmds := [];
    if !VerticesFlushable(state.vertex[..]) {
      return true, cmds;
    }
    panicked := false;
    FlushedCommandsAreState(state.index, state.vertex[..], state.bind[..], state.usedBindGroups, dyn, withIndex);
    if withIndex {
      var flushed := state.index.Flush();
      state.index := flushed.0;
      cmds := if flushed.1.Some? then [flushed.1.value] else [];
    }
    var vertexCmds := state.FlushVertices();
    assert BindTableWellFormed(state.bind[..], |dyn|);
    var bindCmds := state.FlushBinds(dyn);
    cmds := cmds + vertexCmds + bindCmds;
    forall i | 0 <= i < state.bind.Length && state.bind[i].Some?
      ensures state.bind[i].value.OffsetsWithin(|dyn|)
    {
      assert state.bind[i] == if i < state.usedBindGroups then Cleaned(old(state.bind[i])) else old(state.bind[i]);
    }
  }

  /**
   * Snapshot `s` after the flushes before a draw: the index (for indexed
   * draws), the slots and the bind groups in use are clean, and the dirty
   * groups' offsets are appended.
   */
  function Flushed(s: Snapshot, dyn: seq<DynamicOffset>, withIndex: bool): Snapshot
    requires Tracked(s, |dyn|)
  {
    s.(index := if withIndex then s.index.(isDirty := false) else s.index,
       vertex := CleanedVertices(s.vertex),
       bind := CleanedBinds(s.bind, s.usedBindGroups),
       flatDynamicOffsets := s.flatDynamicOffsets + DirtyOffsets(s.bind[..s.usedBindGroups], dyn))
  }

  /** The end every draw arm shares: flush, then append the draw `c`. */
  function DrawFlushMove(s: Snapshot, dyn: seq<DynamicOffset>, withIndex: bool, c: RenderCommand): Move
    requires Tracked(s, |dyn|)
  {
    if !VerticesFlushable(s.vertex) then Move(Panic, [], s)
    else Move(Continue, FlushedCommands(s.index, s.vertex, s.bind, s.usedBindGroups, |dyn|, withIndex) + [c], Flushed(s, dyn, withIndex))
  }

  /** The `Draw` arm on snapshot `s`. */
  function DrawMove(s: Snapshot, dyn: seq<DynamicOffset>, c: RenderCommand): Move
    requires c.Draw? && Tracked(s, |dyn|)
  {
    var err := DrawLimitError(VertexLimitsOf(s.vertex), c.firstVertex, c.vertexCount, c.firstInstance, c.instanceCount);
    if err.Some? then Move(Stop(RenderBundleError(ScopeDraw(false, false, s.pipeline), DrawFailure(err.value))), [], s)
    else DrawFlushMove(s, dyn, false, c)
  }

  /** The `Draw` arm of `finish`. */
  method DrawArm(state: State, dyn: seq<DynamicOffset>, c: RenderCommand) returns (step: StepResult, emitted: seq<RenderCommand>)
    requires c.Draw? && Tracking(state, |dyn|)
    modifies state`index, state`flatDynamicOffsets, state.vertex, state.bind
    ensures Tracking(state, |dyn|)
    ensures var m := DrawMove(old(SnapshotOf(state)), dyn, c);
              step == m.result && (step.Continue? ==> emitted == m.emitted && SnapshotOf(state) == m.state)
    ensures var err := DrawLimitError(VertexLimitsOf(old(state.vertex[..])), c.firstVertex, c.vertexCount, c.firstInstance, c.instanceCount);
      && (err.Some? ==> step == Stop(RenderBundleError(ScopeDraw(false, false, state.pipeline), DrawFailure(err.value))))
      && (err.None? && !VerticesFlushable(old(state.vertex[..])) ==> step.Panic?)
      && (err.None? && VerticesFlushable(old(state.vertex[..])) ==>
            && step.Continue?
            && emitted == FlushedCommands(old(state.index), old(state.vertex[..]), old(state.bind[..]), state.usedBindGroups, |dyn|, false) + [c])
    ensures step.Continue? ==> Recorded(emitted) == [c] && |state.flatDynamicOffsets| == |old(state.flatDynamicOffsets)| + DynamicOffsetCount(emitted)
  {
    emitted := [];
    var limits := state.VertexLimits();
    var err := DrawLimitError(limits, c.firstVertex, c.vertexCount, c.firstInstance, c.instanceCount);
    if err.Some? {
      return Stop(RenderBundleError(ScopeDraw(false, false, state.pipeline), DrawFailure(err.value))), emitted;
    }
    var panicked, cmds := FlushForDraw(state, dyn, false);
    if panicked {
      return Panic, emitted;
    }
    emitted := cmds + [c];
    AppendDraw(cmds, c);
    step := Continue;
  }

  /** Appending a draw to generated state adds the draw to the recorded commands and no offsets. */
  lemma AppendDraw(cmds: seq<RenderCommand>, c: RenderCommand)
    requires c.Draw? || c.DrawIndexed? || c.MultiDrawIndirect?
    requires Recorded(cmds) == []
    ensures Recorded(cmds + [c]) == [c]
    ensures DynamicOffsetCount(cmds + [c]) == DynamicOffsetCount(cmds)
  {
    assert (cmds + [c])[..|cmds + [c]| - 1] == cmds;
  }

  /** The `DrawIndexed` arm on snapshot `s`. */
  function DrawIndexedMove(s: Snapshot, dyn: seq<DynamicOffset>, c: RenderCommand): Move
    requires c.DrawIndexed? && Tracked(s, |dyn|)
  {
    if s.index.buffer.None? then Move(Panic, [], s)
    else
      var err := IndexedDrawLimitError(s.index.Limit(), VertexLimitsOf(s.vertex),
                                       c.firstIndex, c.indexCount, c.firstInstance, c.instanceCount);
      if err.Some? then Move(Stop(RenderBundleError(ScopeDraw(true, false, s.pipeline), DrawFailure(err.value))), [], s)
      else DrawFlushMove(s, dyn, true, c)
  }

  /** The `DrawIndexed` arm of `finish`; drawing without an index buffer panics. */
  method DrawIndexedArm(state: State, dyn: seq<DynamicOffset>, c: RenderCommand) returns (step: StepResult, emitted: seq<RenderCommand>)
    requires c.DrawIndexed? && Tracking(state, |dyn|)
    modifies state`index, state`flatDynamicOffsets, state.vertex, state.bind
    ensures Tracking(state, |dyn|)
    ensures var m := DrawIndexedMove(old(SnapshotOf(state)), dyn, c);
              step == m.result && (step.Continue? ==> emitted == m.emitted && SnapshotOf(state) == m.state)
    ensures old(state.index).buffer.None? ==> step.Panic?
    ensures old(state.index).buffer.Some? ==>
      var err := IndexedDrawLimitError(old(state.index).Limit(), VertexLimitsOf(old(state.vertex[..])),
                                       c.firstIndex, c.indexCount, c.firstInstance, c.instanceCount);
      && (err.Some? ==> step == Stop(RenderBundleError(ScopeDraw(true, false, state.pipeline), DrawFailure(err.value))))
      && (err.None? && !VerticesFlushable(old(state.vertex[..])) ==> step.Panic?)
      && (err.None? && VerticesFlushable(old(state.vertex[..])) ==>
            && step.Continue?
            && emitted == FlushedCommands(old(state.index), old(state.vertex[..]), old(state.bind[..]), state.usedBindGroups, |dyn|, true) + [c])
    ensures step.Continue? ==> Recorded(emitted) == [c] && |state.flatDynamicOffsets| == |old(state.flatDynamicOffsets)| + DynamicOffsetCount(emitted)
  {
    ghost var m := DrawIndexedMove(SnapshotOf(state), dyn, c);
    emitted := [];
    var limits := state.VertexLimits();
    if state.index.buffer.None? {
      return Panic, emitted;
    }
    var indexLimit := state.index.Limit();
    var err := IndexedDrawLimitError(indexLimit, limits, c.firstIndex, c.indexCount, c.firstInstance, c.instanceCount);
    if err.Some? {
      return Stop(RenderBundleError(ScopeDraw(true, false, state.pipeline), DrawFailure(err.value))), emitted;
    }
    var panicked, cmds := FlushForDraw(state, dyn, true);
    if panicked {
      return Panic, emitted;
    }
    emitted := cmds + [c];
    AppendDraw(cmds, c);
    step := Continue;
  }

  /** The `MultiDrawIndirect` arms on snapshot `s`. */
  function IndirectMove(enc: RenderBundleEncoder, device: Device, hub: Hub, s: Snapshot, c: RenderCommand): Move
    requires c.MultiDrawIndirect? && Tracked(s, |enc.base.dynamicOffsets|)
  {
    var scope := ScopeDraw(c.indexed, true, s.pipeline);
    var check := BufferCheck(enc, hub, c.indirectBufferId, IndirectUsage);
    if !device.indirectExecution then Move(Stop(RenderBundleError(scope, MissingIndirectExecution)), [], s)
    else if check.Some? then Move(Stop(RenderBundleError(scope, check.value)), [], s)
    else DrawFlushMove(s, enc.base.dynamicOffsets, c.indexed, c)
  }

  /** The `MultiDrawIndirect` arms of `finish` (no count buffer). */
  method IndirectArm(enc: RenderBundleEncoder, device: Device, hub: Hub, state: State, c: RenderCommand)
    returns (step: StepResult, emitted: seq<RenderCommand>)
    requires c.MultiDrawIndirect? && Tracking(state, |enc.base.dynamicOffsets|)
    modifies state`index, state`flatDynamicOffsets, state.vertex, state.bind
    ensures Tracking(state, |enc.base.dynamicOffsets|)
    ensures var m := IndirectMove(enc, device, hub, old(SnapshotOf(state)), c);
              step == m.result && (step.Continue? ==> emitted == m.emitted && SnapshotOf(state) == m.state)
    ensures var scope := ScopeDraw(c.indexed, true, state.pipeline);
      && (!device.indirectExecution ==> step == Stop(RenderBundleError(scope, MissingIndirectExecution)))
      && (device.indirectExecution && BufferCheck(enc, hub, c.indirectBufferId, IndirectUsage).Some? ==>
            step == Stop(RenderBundleError(scope, BufferCheck(enc, hub, c.indirectBufferId, IndirectUsage).value)))
      && (device.indirectExecution && BufferCheck(enc, hub, c.indirectBufferId, IndirectUsage).None? ==>
            && (step.Panic? <==> !VerticesFlushable(old(state.vertex[..])))
            && (step.Continue? <==> VerticesFlushable(old(state.vertex[..])))
            && (step.Continue? ==>
                  emitted == FlushedCommands(old(state.index), old(state.vertex[..]), old(state.bind[..]), state.usedBindGroups,
                                             |enc.base.dynamicOffsets|, c.indexed) + [c]))
    ensures step.Continue? ==> Recorded(emitted) == [c] && |state.flatDynamicOffsets| == |old(state.flatDynamicOffsets)| + DynamicOffsetCount(emitted)
  {
    emitted := [];
    var scope := ScopeDraw(c.indexed, true, state.pipeline);
    if !device.indirectExecution {
      return Stop(RenderBundleError(scope, MissingIndirectExecution)), emitted;
    }
    var check := BufferCheck(enc, hub, c.indirectBufferId, IndirectUsage);
    if check.Some? {
      return Stop(RenderBundleError(scope, check.value)), emitted;
    }
    var panicked, cmds := FlushForDraw(state, enc.base.dynamicOffsets, c.indexed);
    if panicked {
      return Panic, emitted;
    }
    emitted := cmds + [c];
    AppendDraw(cmds, c);
    step := Continue;
  }

  // ---------------------------------------------------------------- finish

  /** The checks on a command that do not depend on the simulated state. */
  predicate PassesResourceChecks(c: RenderCommand, enc: RenderBundleEncoder, device: Device, hub: Hub)
  {
    match c
    case SetBindGroup(index, _, id) => BindGroupCheck(enc, device, hub, index, id).None?
    case SetPipeline(id) => PipelineCheck(enc, hub, id).None?
    case SetIndexBuffer(id, _, _, _) => BufferCheck(enc, hub, id, IndexUsage).None?
    case SetVertexBuffer(slot, id, _, _) => BufferCheck(enc, hub, id, VertexUsage).None? && slot < MAX_VERTEX_BUFFERS
    case MultiDrawIndirect(id, _, _, _) => device.indirectExecution && BufferCheck(enc, hub, id, IndirectUsage).None?
    case _ => true
  }

  /** Where `finish`'s loop stands between commands: the state, the dynamic offsets consumed, the pipeline layout. */
  datatype Cursor = Cursor(state: Snapshot, next: nat, layoutId: Option<PipelineLayoutId>)

  predicate CursorValid(enc: RenderBundleEncoder, hub: Hub, cur: Cursor)
  {
    Tracked(cur.state, |enc.base.dynamicOffsets|) && (cur.layoutId.Some? ==> cur.layoutId.value in hub.pipelineLayouts)
  }

  datatype StepOutcome = StepOutcome(result: StepResult, emitted: seq<RenderCommand>, after: Cursor)

  /** A move that keeps the offsets consumed and the pipeline layout. */
  function Advance(cur: Cursor, m: Move): StepOutcome
  {
    StepOutcome(m.result, m.emitted, cur.(state := m.state))
  }

  /**
   * One iteration of `finish`'s loop, on values: the arm for command `c`.
   * The commands a bundle cannot hold reach `unimplemented!()` or
   * `unreachable!()`, and panic.
   */
  function StepOf(enc: RenderBundleEncoder, device: Device, hub: Hub,
                  validate: (PipelineLayout, ShaderStages, U32, U32) -> bool,
                  split: seq<PushConstantRange> -> seq<PushConstantRange>,
                  cur: Cursor, c: RenderCommand): StepOutcome
    requires HubWellFormed(hub, device) && CursorValid(enc, hub, cur)
  {
    var s := cur.state;
    var dyn := enc.base.dynamicOffsets;
    match c
    case SetBindGroup(index, num, id) =>
      var m := SetBindGroupMove(enc, device, hub, s, cur.next, index, num, id);
      StepOutcome(m.result, m.emitted, Cursor(m.state, cur.next + num, cur.layoutId))
    case SetPipeline(id) =>
      var m := SetPipelineMove(enc, device, hub, split, s, id);
      var layoutId := if PipelineCheck(enc, hub, id).None? then Some(hub.renderPipelines[id].layoutId) else cur.layoutId;
      StepOutcome(m.result, m.emitted, Cursor(m.state, cur.next, layoutId))
    case SetIndexBuffer(id, format, offset, size) => Advance(cur, SetIndexBufferMove(enc, hub, s, id, format, offset, size))
    case SetVertexBuffer(slot, id, offset, size) => Advance(cur, SetVertexBufferMove(enc, hub, s, slot, id, offset, size))
    case SetPushConstant(stages, offset, sizeBytes, _) =>
      var err := PushConstantCheck(hub, cur.layoutId, validate, stages, offset, sizeBytes);
      if err.Some? then StepOutcome(Stop(RenderBundleError(ScopeSetPushConstant, err.value)), [], cur)
      else StepOutcome(Continue, [c], cur)
    case Draw(_, _, _, _) => Advance(cur, DrawMove(s, dyn, c))
    case DrawIndexed(_, _, _, _, _) => Advance(cur, DrawIndexedMove(s, dyn, c))
    case MultiDrawIndirect(_, _, count, _) =>
      if count.Some? then StepOutcome(Panic, [], cur) else Advance(cur, IndirectMove(enc, device, hub, s, c))
    case _ => StepOutcome(Panic, [], cur)
  }

  /** The flushes before a draw keep the bind table well formed. */
  lemma CleanedBindsWellFormed(b: seq<Option<BindState>>, used: nat, dynLen: nat)
    requires BindTableWellFormed(b, dynLen)
    ensures BindTableWellFormed(CleanedBinds(b, used), dynLen)
  {
    var r := CleanedBinds(b, used);
    forall i | 0 <= i < |r| && r[i].Some?
      ensures r[i].value.OffsetsWithin(dynLen)
    {
      assert r[i] == if i < used then Cleaned(b[i]) else b[i];
    }
  }

  /** A step that lets `finish` go on leaves a cursor it can go on from. */
  lemma StepKeepsCursorValid(enc: RenderBundleEncoder, device: Device, hub: Hub,
                             validate: (PipelineLayout, ShaderStages, U32, U32) -> bool,
                             split: seq<PushConstantRange> -> seq<PushConstantRange>,
                             cur: Cursor, c: RenderCommand)
    requires HubWellFormed(hub, device) && CursorValid(enc, hub, cur)
    ensures var st := StepOf(enc, device, hub, validate, split, cur, c);
      st.result.Continue? ==> CursorValid(enc, hub, st.after)
  {
    var dynLen := |enc.base.dynamicOffsets|;
    var s := cur.state;
    match c {
      case SetBindGroup(index, num, id) =>
        if BindGroupCheck(enc, device, hub, index, id).None? && cur.next + num <= dynLen {
          var range := OffsetRange(cur.next, cur.next + num);
          BindGroupSetEffect(s.bind, index, id, hub.bindGroups[id].layoutId, range);
          BindGroupSetWellFormed(s.bind, index, id, hub.bindGroups[id].layoutId, range, dynLen);
        }
      case SetPipeline(id) =>
        if PipelineCheck(enc, hub, id).None? {
          var layout := hub.pipelineLayouts[hub.renderPipelines[id].layoutId];
          var changed := s.pushConstants.SetPushConstants(layout.pushConstantRanges).1;
          PipelineReboundWellFormed(s.bind, changed, layout.bindGroupLayoutIds, dynLen);
          PipelineReboundDirties(s.bind, changed, layout.bindGroupLayoutIds, 0);
        }
      case Draw(_, _, _, _) =>
        CleanedBindsWellFormed(s.bind, s.usedBindGroups, dynLen);
      case DrawIndexed(_, _, _, _, _) =>
        CleanedBindsWellFormed(s.bind, s.usedBindGroups, dynLen);
      case MultiDrawIndirect(_, _, _, _) =>
        CleanedBindsWellFormed(s.bind, s.usedBindGroups, dynLen);
      case _ =>
    }
  }

  /**
   * One iteration of `finish`'s loop: the arm for command `c`. A command
   * that lets `finish` go on passed its resource checks, and what it emits
   * records the same commands as `c` alone.
   */
  method Execute(enc: RenderBundleEncoder, device: Device, hub: Hub,
                 validate: (PipelineLayout, ShaderStages, U32, U32) -> bool,
                 split: seq<PushConstantRange> -> seq<PushConstantRange>,
                 state: State, next: nat, layoutId: Option<PipelineLayoutId>, c: RenderCommand)
    returns (step: StepResult, emitted: seq<RenderCommand>, nextOut: nat, layoutOut: Option<PipelineLayoutId>)
    requires HubWellFormed(hub, device) && Tracking(state, |enc.base.dynamicOffsets|)
    requires layoutId.Some? ==> layoutId.value in hub.pipelineLayouts
    modifies state, state.vertex, state.bind
    ensures Tracking(state, |enc.base.dynamicOffsets|)
    ensures layoutOut.Some? ==> layoutOut.value in hub.pipelineLayouts
    ensures var st := StepOf(enc, device, hub, validate, split, Cursor(old(SnapshotOf(state)), next, layoutId), c);
      && step == st.result
      && (step.Continue? ==> emitted == st.emitted && Cursor(SnapshotOf(state), nextOut, layoutOut) == st.after)
    ensures step.Continue? ==>
              && PassesResourceChecks(c, enc, device, hub)
              && Recorded(emitted) == Recorded([c])
              && |state.flatDynamicOffsets| == |old(state.flatDynamicOffsets)| + DynamicOffsetCount(emitted)
  {
    if !SupportedInBundle(c) {
      return Panic, [], next, layoutId;
    }
    if c.Draw? || c.DrawIndexed? || c.MultiDrawIndirect? {
      nextOut := next;
      layoutOut := layoutId;
      step, emitted := ExecuteDraw(enc, device, hub, validate, split, state, next, layoutId, c);
    } else {
      step, emitted, nextOut, layoutOut := ExecuteSetter(enc, device, hub, validate, split, state, next, layoutId, c);
    }
  }

  /** The arms of `finish` for commands that set state. */
  method ExecuteSetter(enc: RenderBundleEncoder, device: Device, hub: Hub,
                       validate: (PipelineLayout, ShaderStages, U32, U32) -> bool,
                       split: seq<PushConstantRange> -> seq<PushConstantRange>,
                       state: State, next: nat, layoutId: Option<PipelineLayoutId>, c: RenderCommand)
    returns (step: StepResult, emitted: seq<RenderCommand>, nextOut: nat, layoutOut: Option<PipelineLayoutId>)
    requires HubWellFormed(hub, device) && Tracking(state, |enc.base.dynamicOffsets|)
    requires c.SetBindGroup? || c.SetPipeline? || c.SetIndexBuffer? || c.SetVertexBuffer? || c.SetPushConstant?
    requires layoutId.Some? ==> layoutId.value in hub.pipelineLayouts
    modifies state, state.vertex, state.bind
    ensures Tracking(state, |enc.base.dynamicOffsets|)
    ensures layoutOut.Some? ==> layoutOut.value in hub.pipelineLayouts
    ensures var st := StepOf(enc, device, hub, validate, split, Cursor(old(SnapshotOf(state)), next, layoutId), c);
      && step == st.result
      && (step.Continue? ==> emitted == st.emitted && Cursor(SnapshotOf(state), nextOut, layoutOut) == st.after)
    ensures step.Continue? ==>
              && PassesResourceChecks(c, enc, device, hub)
              && Recorded(emitted) == Recorded([c])
              && |state.flatDynamicOffsets| == |old(state.flatDynamicOffsets)| + DynamicOffsetCount(emitted)
  {
    step := Continue;
    emitted := [];
    nextOut := next;
    layoutOut := layoutId;
    assert [c][..0] == [];
    match c {
      case SetBindGroup(index, num, id) =>
        step, nextOut := SetBindGroupArm(enc, device, hub, state, next, index, num, id);
      case SetPipeline(id) =>
        var newLayout;
        step, emitted, newLayout := SetPipelineArm(enc, device, hub, split, state, id);
        if step.Continue? {
          layoutOut := newLayout;
        }
      case SetIndexBuffer(id, format, offset, size) =>
        step := SetIndexBufferArm(enc, hub, state, id, format, offset, size);
      case SetVertexBuffer(slot, id, offset, size) =>
        step := SetVertexBufferArm(enc, hub, state, slot, id, offset, size);
      case SetPushConstant(stages, offset, sizeBytes, _) =>
        var err := PushConstantCheck(hub, layoutId, validate, stages, offset, sizeBytes);
        if err.Some? {
          step := Stop(RenderBundleError(ScopeSetPushConstant, err.value));
        } else {
          emitted := [c];
        }
    }
  }

  /** The arms of `finish` for draws. */
  method ExecuteDraw(enc: RenderBundleEncoder, device: Device, hub: Hub,
                     validate: (PipelineLayout, ShaderStages, U32, U32) -> bool,
                     split: seq<PushConstantRange> -> seq<PushConstantRange>,
                     state: State, next: nat, layoutId: Option<PipelineLayoutId>, c: RenderCommand)
    returns (step: StepResult, emitted: seq<RenderCommand>)
    requires HubWellFormed(hub, device) && Tracking(state, |enc.base.dynamicOffsets|)
    requires layoutId.Some? ==> layoutId.value in hub.pipelineLayouts
    requires c.Draw? || c.DrawIndexed? || (c.MultiDrawIndirect? && c.count.None?)
    modifies state, state.vertex, state.bind
    ensures Tracking(state, |enc.base.dynamicOffsets|)
    ensures var st := StepOf(enc, device, hub, validate, split, Cursor(old(SnapshotOf(state)), next, layoutId), c);
      && step == st.result
      && (step.Continue? ==> emitted == st.emitted && Cursor(SnapshotOf(state), next, layoutId) == st.after)
    ensures step.Continue? ==>
              && PassesResourceChecks(c, enc, device, hub)
              && Recorded(emitted) == Recorded([c])
              && |state.flatDynamicOffsets| == |old(state.flatDynamicOffsets)| + DynamicOffsetCount(emitted)
  {
    assert [c][..0] == [];
    if c.Draw? {
      step, emitted := DrawArm(state, enc.base.dynamicOffsets, c);
    } else if c.DrawIndexed? {
      step, emitted := DrawIndexedArm(state, enc.base.dynamicOffsets, c);
    } else {
      step, emitted := IndirectArm(enc, device, hub, state, c);
    }
  }

  /** Every command of `cs` passes the checks of `PassesResourceChecks`. */
  predicate AllPassResourceChecks(cs: seq<RenderCommand>, enc: RenderBundleEncoder, device: Device, hub: Hub)
  {
    cs == [] || (AllPassResourceChecks(cs[..|cs| - 1], enc, device, hub) && PassesResourceChecks(cs[|cs| - 1], enc, device, hub))
  }

  lemma {:induction false} AllPassResourceChecksMeans(cs: seq<RenderCommand>, enc: RenderBundleEncoder, device: Device, hub: Hub)
    requires AllPassResourceChecks(cs, enc, device, hub)
    ensures forall c :: c in cs ==> PassesResourceChecks(c, enc, device, hub)
  {
    if cs != [] {
      AllPassResourceChecksMeans(cs[..|cs| - 1], enc, device, hub);
      assert forall c :: c in cs ==> c in cs[..|cs| - 1] || c == cs[|cs| - 1];
    }
  }

  /** Appending what the arm for `all[i]` emits keeps `finish`'s bookkeeping. */
  lemma StepBookkeeping(commands: seq<RenderCommand>, emitted: seq<RenderCommand>, all: seq<RenderCommand>, i: nat,
                        enc: RenderBundleEncoder, device: Device, hub: Hub)
    requires i < |all|
    requires Recorded(commands) == Recorded(all[..i]) && Recorded(emitted) == Recorded([all[i]])
    requires AllPassResourceChecks(all[..i], enc, device, hub) && PassesResourceChecks(all[i], enc, device, hub)
    ensures Recorded(commands + emitted) == Recorded(all[..i + 1])
    ensures DynamicOffsetCount(commands + emitted) == DynamicOffsetCount(commands) + DynamicOffsetCount(emitted)
    ensures AllPassResourceChecks(all[..i + 1], enc, device, hub)
  {
    assert all[..i + 1] == all[..i] + [all[i]];
    assert all[..i + 1][..i] == all[..i];
    RecordedAppend(all[..i], [all[i]]);
    RecordedAppend(commands, emitted);
    DynamicOffsetCountAppend(commands, emitted);
  }

  datatype RenderBundle = RenderBundle(
    bundleLabel: Option<string>,
    commands: seq<RenderCommand>,
    dynamicOffsets: seq<DynamicOffset>,
    stringData: seq<U8>,
    pushConstantData: seq<U32>,
    isDsReadOnly: bool,
    deviceId: DeviceId,
    context: RenderPassContext)

  datatype FinishOutcome = Finished(bundle: RenderBundle) | Failed(error: RenderBundleError) | Panicked

  /** `finish`'s loop over a prefix of the commands: still running, or stopped by the arm for command `at`. */
  datatype Replay = Running(cur: Cursor, commands: seq<RenderCommand>) | Halted(result: StepResult, at: nat)

  /** `finish`'s loop over the commands `cs`, on values. */
  function ReplayOf(enc: RenderBundleEncoder, device: Device, hub: Hub,
                    validate: (PipelineLayout, ShaderStages, U32, U32) -> bool,
                    split: seq<PushConstantRange> -> seq<PushConstantRange>,
                    cs: seq<RenderCommand>): (r: Replay)
    requires HubWellFormed(hub, device)
    ensures r.Running? ==> CursorValid(enc, hub, r.cur)
    decreases |cs|
  {
    if cs == [] then Running(Cursor(Start(), 0, None), [])
    else
      var before := ReplayOf(enc, device, hub, validate, split, cs[..|cs| - 1]);
      if before.Halted? then before
      else
        var st := StepOf(enc, device, hub, validate, split, before.cur, cs[|cs| - 1]);
        StepKeepsCursorValid(enc, device, hub, validate, split, before.cur, cs[|cs| - 1]);
        if st.result.Continue? then Running(st.after, before.commands + st.emitted)
        else Halted(st.result, |cs| - 1)
  }

  /** `RenderBundleEncoder::finish`, on values. */
  function FinishOf(enc: RenderBundleEncoder, bundleLabel: Option<string>, device: Device, hub: Hub,
                    validate: (PipelineLayout, ShaderStages, U32, U32) -> bool,
                    split: seq<PushConstantRange> -> seq<PushConstantRange>): FinishOutcome
    requires HubWellFormed(hub, device)
  {
    match ReplayOf(enc, device, hub, validate, split, enc.base.commands)
    case Running(cur, commands) =>
      Finished(RenderBundle(bundleLabel, commands, cur.state.flatDynamicOffsets, [], [], enc.isDsReadOnly, enc.parentId, enc.context))
    case Halted(result, _) => if result.Stop? then Failed(result.error) else Panicked
  }

  /** Once the loop has stopped, the commands after the one that stopped it change nothing. */
  lemma {:induction false} ReplayStaysHalted(enc: RenderBundleEncoder, device: Device, hub: Hub,
                                             validate: (PipelineLayout, ShaderStages, U32, U32) -> bool,
                                             split: seq<PushConstantRange> -> seq<PushConstantRange>,
                                             cs: seq<RenderCommand>, k: nat)
    requires HubWellFormed(hub, device) && k <= |cs|
    requires ReplayOf(enc, device, hub, validate, split, cs[..k]).Halted?
    ensures ReplayOf(enc, device, hub, validate, split, cs) == ReplayOf(enc, device, hub, validate, split, cs[..k])
    decreases |cs|
  {
    if k < |cs| {
      assert cs[..|cs| - 1][..k] == cs[..k];
      ReplayStaysHalted(enc, device, hub, validate, split, cs[..|cs| - 1], k);
    } else {
      assert cs[..k] == cs;
    }
  }

  /** The loop is still running after command `i` of `cs`. */
  predicate ContinuesAt(enc: RenderBundleEncoder, device: Device, hub: Hub,
                        validate: (PipelineLayout, ShaderStages, U32, U32) -> bool,
                        split: seq<PushConstantRange> -> seq<PushConstantRange>,
                        cs: seq<RenderCommand>, i: nat)
    requires HubWellFormed(hub, device) && i < |cs|
  {
    ReplayOf(enc, device, hub, validate, split, cs[..i + 1]).Running?
  }

  /** The loop is still running after command `i` exactly when it reached it and the arm for it lets `finish` go on. */
  lemma ContinuesAtMeans(enc: RenderBundleEncoder, device: Device, hub: Hub,
                         validate: (PipelineLayout, ShaderStages, U32, U32) -> bool,
                         split: seq<PushConstantRange> -> seq<PushConstantRange>,
                         cs: seq<RenderCommand>, i: nat)
    requires HubWellFormed(hub, device) && i < |cs|
    ensures var before := ReplayOf(enc, device, hub, validate, split, cs[..i]);
      ContinuesAt(enc, device, hub, validate, split, cs, i) <==>
        before.Running? && StepOf(enc, device, hub, validate, split, before.cur, cs[i]).result.Continue?
  {
    assert cs[..i + 1][..i] == cs[..i];
  }

  /** Whether command `i` of `cs` continues depends on `cs[..i + 1]` alone. */
  lemma ContinuesAtPrefix(enc: RenderBundleEncoder, device: Device, hub: Hub,
                          validate: (PipelineLayout, ShaderStages, U32, U32) -> bool,
                          split: seq<PushConstantRange> -> seq<PushConstantRange>,
                          cs: seq<RenderCommand>, n: nat, i: nat)
    requires HubWellFormed(hub, device) && i < n <= |cs|
    ensures ContinuesAt(enc, device, hub, validate, split, cs[..n], i) == ContinuesAt(enc, device, hub, validate, split, cs, i)
  {
    assert cs[..n][..i + 1] == cs[..i + 1];
  }

  /** The loop runs through `cs` if and only if the arm for every command lets it go on. */
  lemma ReplayRunsIffEveryStepContinues(enc: RenderBundleEncoder, device: Device, hub: Hub,
                                        validate: (PipelineLayout, ShaderStages, U32, U32) -> bool,
                                        split: seq<PushConstantRange> -> seq<PushConstantRange>,
                                        cs: seq<RenderCommand>)
    requires HubWellFormed(hub, device)
    ensures ReplayOf(enc, device, hub, validate, split, cs).Running? <==>
              forall i :: 0 <= i < |cs| ==> ContinuesAt(enc, device, hub, validate, split, cs, i)
  {
    if ReplayOf(enc, device, hub, validate, split, cs).Running? {
      forall i | 0 <= i < |cs|
        ensures ContinuesAt(enc, device, hub, validate, split, cs, i)
      {
        if !ContinuesAt(enc, device, hub, validate, split, cs, i) {
          ReplayStaysHalted(enc, device, hub, validate, split, cs, i + 1);
        }
      }
    } else if cs != [] {
      assert cs[..|cs| - 1 + 1] == cs;
      assert !ContinuesAt(enc, device, hub, validate, split, cs, |cs| - 1);
    }
  }

  /**
   * When the loop stops, it stops at the first command whose arm does not
   * let it go on, with that arm's verdict.
   */
  lemma {:induction false} ReplayHaltsAtFirstFailure(enc: RenderBundleEncoder, device: Device, hub: Hub,
                                                     validate: (PipelineLayout, ShaderStages, U32, U32) -> bool,
                                                     split: seq<PushConstantRange> -> seq<PushConstantRange>,
                                                     cs: seq<RenderCommand>)
    requires HubWellFormed(hub, device)
    ensures var h := ReplayOf(enc, device, hub, validate, split, cs);
      h.Halted? ==>
        && h.at < |cs| && !h.result.Continue?
        && (forall j :: 0 <= j < h.at ==> ContinuesAt(enc, device, hub, validate, split, cs, j))
        && ReplayOf(enc, device, hub, validate, split, cs[..h.at]).Running?
        && h.result == StepOf(enc, device, hub, validate, split, ReplayOf(enc, device, hub, validate, split, cs[..h.at]).cur, cs[h.at]).result
    decreases |cs|
  {
    if cs != [] {
      var init := cs[..|cs| - 1];
      var h := ReplayOf(enc, device, hub, validate, split, cs);
      ReplayHaltsAtFirstFailure(enc, device, hub, validate, split, init);
      if h.Halted? {
        if ReplayOf(enc, device, hub, validate, split, init).Halted? {
          assert cs[..h.at] == init[..h.at];
        } else {
          assert cs[..h.at] == init;
        }
        ReplayRunsIffEveryStepContinues(enc, device, hub, validate, split, cs[..h.at]);
        forall j | 0 <= j < h.at
          ensures ContinuesAt(enc, device, hub, validate, split, cs, j)
        {
          ContinuesAtPrefix(enc, device, hub, validate, split, cs, h.at, j);
        }
      }
    }
  }

  /**
   * `finish` returns a bundle if and only if the arm for every command lets
   * it go on; otherwise it returns the error (or panics) of the first
   * command whose arm does not, every earlier one having gone on.
   */
  lemma FinishOutcomeIsFirstFailure(enc: RenderBundleEncoder, bundleLabel: Option<string>, device: Device, hub: Hub,
                                    validate: (PipelineLayout, ShaderStages, U32, U32) -> bool,
                                    split: seq<PushConstantRange> -> seq<PushConstantRange>)
    requires HubWellFormed(hub, device)
    ensures var cs := enc.base.commands;
      var r := FinishOf(enc, bundleLabel, device, hub, validate, split);
      && (r.Finished? <==> forall i :: 0 <= i < |cs| ==> ContinuesAt(enc, device, hub, validate, split, cs, i))
      && (!r.Finished? ==>
            exists i :: 0 <= i < |cs| && ReplayOf(enc, device, hub, validate, split, cs[..i]).Running?
              && (forall j :: 0 <= j < i ==> ContinuesAt(enc, device, hub, validate, split, cs, j))
              && StepOf(enc, device, hub, validate, split, ReplayOf(enc, device, hub, validate, split, cs[..i]).cur, cs[i]).result
                 == (if r.Failed? then Stop(r.error) else Panic))
  {
    var cs := enc.base.commands;
    ReplayRunsIffEveryStepContinues(enc, device, hub, validate, split, cs);
    ReplayHaltsAtFirstFailure(enc, device, hub, validate, split, cs);
    var h := ReplayOf(enc, device, hub, validate, split, cs);
    if h.Halted? {
      assert ReplayOf(enc, device, hub, validate, split, cs[..h.at]).Running?;
    }
  }

  /**
   * `RenderBundleEncoder::finish`: runs the arm for each recorded command in
   * order and stops at the first that fails or panics, so its outcome is
   * `FinishOf` (see `FinishOutcomeIsFirstFailure`). A finished bundle keeps
   * every recorded command (pipelines, push-constant uploads, draws) in
   * order, every resource it names passed its checks, and it holds one
   * dynamic offset per offset its `SetBindGroup` commands declare. Its
   * string and push-constant data are left empty, so the data offset of
   * every kept push-constant upload lies past the end of its data.
   */
  method Finish(enc: RenderBundleEncoder, bundleLabel: Option<string>, device: Device, hub: Hub,
                validate: (PipelineLayout, ShaderStages, U32, U32) -> bool,
                split: seq<PushConstantRange> -> seq<PushConstantRange>)
    returns (r: FinishOutcome)
    requires HubWellFormed(hub, device)
    ensures r == FinishOf(enc, bundleLabel, device, hub, validate, split)
    ensures r.Finished? ==>
              && r.bundle.bundleLabel == bundleLabel && r.bundle.isDsReadOnly == enc.isDsReadOnly
              && r.bundle.deviceId == enc.parentId && r.bundle.context == enc.context
              && Recorded(r.bundle.commands) == Recorded(enc.base.commands)
              && |r.bundle.dynamicOffsets| == DynamicOffsetCount(r.bundle.commands)
              && (forall c :: c in enc.base.commands ==> PassesResourceChecks(c, enc, device, hub))
    ensures r.Finished? ==>
              && r.bundle.stringData == [] && r.bundle.pushConstantData == []
              && forall c :: c in enc.base.commands && c.SetPushConstant? && c.valuesOffset.Some? ==>
                   c in r.bundle.commands && c.valuesOffset.value >= |r.bundle.pushConstantData|
  {
    var base := enc.base;
    var state := new State();
    var commands: seq<RenderCommand> := [];
    var pipelineLayoutId: Option<PipelineLayoutId> := None;
    var next: nat := 0;
    assert BindTableWellFormed(state.bind[..], |base.dynamicOffsets|);
    assert state.vertex[..] == seq(MAX_VERTEX_BUFFERS, i => NEW_VERTEX_STATE);
    assert state.bind[..] == seq(MAX_BIND_GROUPS, i => None);
    assert SnapshotOf(state) == Start();
    for i := 0 to |base.commands|
      invariant fresh(state) && fresh(state.vertex) && fresh(state.bind)
      invariant ReplayOf(enc, device, hub, validate, split, base.commands[..i])
                == Running(Cursor(SnapshotOf(state), next, pipelineLayoutId), commands)
      invariant Tracking(state, |base.dynamicOffsets|)
      invariant pipelineLayoutId.Some? ==> pipelineLayoutId.value in hub.pipelineLayouts
      invariant |state.flatDynamicOffsets| == DynamicOffsetCount(commands)
      invariant Recorded(commands) == Recorded(base.commands[..i])
      invariant AllPassResourceChecks(base.commands[..i], enc, device, hub)
    {
      var c := base.commands[i];
      var step, emitted;
      step, emitted, next, pipelineLayoutId := Execute(enc, device, hub, validate, split, state, next, pipelineLayoutId, c);
      assert base.commands[..i + 1][..i] == base.commands[..i];
      if !step.Continue? {
        ReplayStaysHalted(enc, device, hub, validate, split, base.commands, i + 1);
        match step {
          case Stop(e) => return Failed(e);
          case Panic => return Panicked;
        }
      }
      StepBookkeeping(commands, emitted, base.commands, i, enc, device, hub);
      commands := commands + emitted;
    }
    assert base.commands[..|base.commands|] == base.commands;
    AllPassResourceChecksMeans(base.commands, enc, device, hub);
    forall c | c in base.commands && c.SetPushConstant? && c.valuesOffset.Some?
      ensures c in commands
    {
      RecordedKeeps(base.commands, c);
    }
    r := Finished(RenderBundle(bundleLabel, commands, state.flatDynamicOffsets, [], [], enc.isDsReadOnly, enc.parentId, enc.context));
  }
}
