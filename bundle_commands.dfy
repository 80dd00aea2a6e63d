/**
 * The vocabulary of wgpu-core's render bundles
 * (third_party/rust/wgpu-core/src/command/bundle.rs): resource ids, the
 * recorded `RenderCommand`s, the fixed-width integers they carry and the
 * wrap-around arithmetic Rust performs on them in builds without overflow
 * checks.
 *
 * The limits MAX_COLOR_TARGETS, MAX_BIND_GROUPS and MAX_VERTEX_BUFFERS are
 * wgpu-hal's; wgpu-hal is not part of this model.
 */
module BundleCommands {
  import opened Wrappers

  const MAX_COLOR_TARGETS: nat := 4
  const MAX_BIND_GROUPS: nat := 8
  const MAX_VERTEX_BUFFERS: nat := 16

  const U32_MAX: nat := 0xFFFF_FFFF

  type U8 = x: nat | x < 0x100
  type U32 = x: nat | x < 0x1_0000_0000
  type U64 = x: nat | x < 0x1_0000_0000_0000_0000

  /** `a + b` on `u32` when it wraps. */
  function WrappingAddU32(a: U32, b: U32): (r: U32)
    ensures a + b <= U32_MAX ==> r == a + b
    ensures a + b > U32_MAX ==> r == a + b - 0x1_0000_0000
  {
    (a + b) % 0x1_0000_0000
  }

  /** `a + b` on `u64` when it wraps. */
  function WrappingAddU64(a: U64, b: U64): (r: U64)
    ensures a + b < 0x1_0000_0000_0000_0000 ==> r == a + b
  {
    (a + b) % 0x1_0000_0000_0000_0000
  }

  /** `a - b` on `u64` when it wraps. */
  function WrappingSubU64(a: U64, b: U64): (r: U64)
    ensures b <= a ==> r == a - b
    ensures a < b ==> r == a - b + 0x1_0000_0000_0000_0000
  {
    (a - b) % 0x1_0000_0000_0000_0000
  }

  /** `a - b` on `u32` when it wraps. */
  function WrappingSubU32(a: U32, b: U32): (r: U32)
    ensures b <= a ==> r == a - b
  {
    (a - b) % 0x1_0000_0000
  }

  /** `n as u32`: keep the low 32 bits. */
  function TruncateToU32(n: nat): (r: U32)
    ensures n <= U32_MAX ==> r == n
  {
    n % 0x1_0000_0000
  }

  /** `BufferSize::new`: a size of zero is no size. */
  function NonZeroSize(n: U64): (r: Option<U64>)
    ensures r.None? <==> n == 0
    ensures r.Some? ==> r.value == n
  {
    if n == 0 then None else Some(n)
  }

  type BufferId = nat
  type BindGroupId = nat
  type BindGroupLayoutId = nat
  type PipelineLayoutId = nat
  type RenderPipelineId = nat
  type DeviceId = nat
  type DynamicOffset = U32
  /** A `wgt::ShaderStages` bit set. */
  type ShaderStages = U32

  datatype IndexFormat = Uint16 | Uint32

  /** `wgt::IndexFormat::default()`. */
  const DEFAULT_INDEX_FORMAT: IndexFormat := Uint32

  datatype VertexStepMode = Vertex | Instance

  /** A `Range<BufferAddress>`. */
  datatype BufferRange = BufferRange(start: U64, end: U64)

  /** A `wgt::PushConstantRange`: the stages and the byte range they see. */
  datatype PushConstantRange = PushConstantRange(stages: ShaderStages, start: U32, end: U32)

  datatype RenderCommand =
    | SetBindGroup(index: U8, numDynamicOffsets: U8, bindGroupId: BindGroupId)
    | SetPipeline(pipelineId: RenderPipelineId)
    | SetIndexBuffer(indexBufferId: BufferId, indexFormat: IndexFormat, indexOffset: U64, indexSize: Option<U64>)
    | SetVertexBuffer(slot: U32, vertexBufferId: BufferId, vertexOffset: U64, vertexSize: Option<U64>)
    | SetPushConstant(stages: ShaderStages, offset: U32, sizeBytes: U32, valuesOffset: Option<U32>)
    | Draw(vertexCount: U32, instanceCount: U32, firstVertex: U32, firstInstance: U32)
    | DrawIndexed(indexCount: U32, instanceCount: U32, firstIndex: U32, baseVertex: int, firstInstance: U32)
    | MultiDrawIndirect(indirectBufferId: BufferId, indirectOffset: U64, count: Option<U32>, indexed: bool)
    | MultiDrawIndirectCount
    | PushDebugGroup
    | InsertDebugMarker
    | PopDebugGroup
    | WriteTimestamp
    | BeginPipelineStatisticsQuery
    | EndPipelineStatisticsQuery
    | ExecuteBundle
    | SetBlendConstant
    | SetStencilReference
    | SetViewport
    | SetScissor

  /**
   * The commands `finish` handles; every other one reaches
   * `unimplemented!()` or `unreachable!()`.
   */
  predicate SupportedInBundle(c: RenderCommand)
  {
    || c.SetBindGroup? || c.SetPipeline? || c.SetIndexBuffer? || c.SetVertexBuffer?
    || c.SetPushConstant? || c.Draw? || c.DrawIndexed?
    || (c.MultiDrawIndirect? && c.count.None?)
  }

  /**
   * A recorded pass: its commands, the dynamic offsets `SetBindGroup`
   * commands consume in order, the bytes of its debug strings, and the
   * words a `SetPushConstant` with `valuesOffset` reads from.
   */
  datatype BasePass = BasePass(
    passLabel: Option<string>,
    commands: seq<RenderCommand>,
    dynamicOffsets: seq<DynamicOffset>,
    stringData: seq<U8>,
    pushConstantData: seq<U32>)

  /**
   * The commands the normaliser keeps as recorded: pipeline changes, push
   * constant uploads with data, and draws. Everything else in a finished
   * bundle is state it generates itself.
   */
  predicate IsRecorded(c: RenderCommand)
  {
    || c.SetPipeline? || c.Draw? || c.DrawIndexed? || c.MultiDrawIndirect?
    || (c.SetPushConstant? && c.valuesOffset.Some?)
  }

  function Recorded(cs: seq<RenderCommand>): (r: seq<RenderCommand>)
    ensures |r| <= |cs|
    ensures forall c :: c in r ==> c in cs && IsRecorded(c)
  {
    if cs == [] then []
    else Recorded(cs[..|cs| - 1]) + (if IsRecorded(cs[|cs| - 1]) then [cs[|cs| - 1]] else [])
  }

  /** Every recorded command of `cs` is kept. */
  lemma {:induction false} RecordedKeeps(cs: seq<RenderCommand>, c: RenderCommand)
    requires c in cs && IsRecorded(c)
    ensures c in Recorded(cs)
    decreases |cs|
  {
    if c != cs[|cs| - 1] {
      assert cs == cs[..|cs| - 1] + [cs[|cs| - 1]];
      RecordedKeeps(cs[..|cs| - 1], c);
    }
  }

  lemma {:induction false} RecordedAppend(a: seq<RenderCommand>, b: seq<RenderCommand>)
    ensures Recorded(a + b) == Recorded(a) + Recorded(b)
    decreases |b|
  {
    if b == [] {
      assert a + b == a;
    } else {
      assert (a + b)[..|a + b| - 1] == a + b[..|b| - 1];
      RecordedAppend(a, b[..|b| - 1]);
    }
  }

  /** How many dynamic offsets the `SetBindGroup` commands of `cs` consume. */
  function DynamicOffsetCount(cs: seq<RenderCommand>): nat
  {
    if cs == [] then 0
    else DynamicOffsetCount(cs[..|cs| - 1])
         + (if cs[|cs| - 1].SetBindGroup? then cs[|cs| - 1].numDynamicOffsets else 0)
  }

  lemma {:induction false} DynamicOffsetCountAppend(a: seq<RenderCommand>, b: seq<RenderCommand>)
    ensures DynamicOffsetCount(a + b) == DynamicOffsetCount(a) + DynamicOffsetCount(b)
    decreases |b|
  {
    if b == [] {
      assert a + b == a;
    } else {
      assert (a + b)[..|a + b| - 1] == a + b[..|b| - 1];
      DynamicOffsetCountAppend(a, b[..|b| - 1]);
    }
  }

  /** Commands that are not recorded ones leave nothing behind in `Recorded`. */
  lemma {:induction false} UnrecordedVanish(cs: seq<RenderCommand>)
    requires forall c :: c in cs ==> !IsRecorded(c)
    ensures Recorded(cs) == []
  {
    if cs != [] {
      assert cs[|cs| - 1] in cs;
      assert forall c :: c in cs[..|cs| - 1] ==> c in cs;
      UnrecordedVanish(cs[..|cs| - 1]);
    }
  }

  /** Commands other than `SetBindGroup` consume no dynamic offsets. */
  lemma {:induction false} NoBindGroupsNoOffsets(cs: seq<RenderCommand>)
    requires forall c :: c in cs ==> !c.SetBindGroup?
    ensures DynamicOffsetCount(cs) == 0
  {
    if cs != [] {
      assert cs[|cs| - 1] in cs;
      assert forall c :: c in cs[..|cs| - 1] ==> c in cs;
      NoBindGroupsNoOffsets(cs[..|cs| - 1]);
    }
  }
}
