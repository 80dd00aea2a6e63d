/**
 * The simulated pipeline state `RenderBundleEncoder::finish` keeps while it
 * normalises a bundle's commands (third_party/rust/wgpu-core/src/command/bundle.rs):
 * commands that set state only update this model, and the `flush` operations
 * turn whatever is dirty back into commands just before a draw.
 */
module BundleState {
  import opened Wrappers
  import opened BundleCommands

  /** `offset..end` for a buffer binding: an explicit size, or the rest of the buffer. */
  function BufferEnd(offset: U64, size: Option<U64>, bufferSize: U64): (end: U64)
    ensures size.Some? && offset + size.value < 0x1_0000_0000_0000_0000 ==> end == offset + size.value
    ensures size.None? ==> end == bufferSize
  {
    match size
    case Some(s) => WrappingAddU64(offset, s)
    case None => bufferSize
  }

  function BytesPerIndex(f: IndexFormat): nat
  {
    match f
    case Uint16 => 2
    case Uint32 => 4
  }

  // ---------------------------------------------------------------- index

  datatype IndexState = IndexState(
    buffer: Option<BufferId>,
    format: IndexFormat,
    pipelineFormat: Option<IndexFormat>,
    range: BufferRange,
    isDirty: bool)
  {
    /**
     * `IndexState::limit`: the number of whole indices in the bound range,
     * cut to 32 bits. The caller must have bound a buffer (the source
     * asserts it).
     */
    function Limit(): (n: U32)
      requires buffer.Some?
      ensures range.start <= range.end ==>
                n == ((range.end - range.start) / BytesPerIndex(format)) % 0x1_0000_0000
      ensures range.start <= range.end && range.end - range.start <= U32_MAX ==>
                n * BytesPerIndex(format) <= range.end - range.start < (n + 1) * BytesPerIndex(format)
    {
      TruncateToU32(WrappingSubU64(range.end, range.start) / BytesPerIndex(format))
    }

    /** The `SetIndexBuffer` command that re-binds this state. */
    function Command(): (c: RenderCommand)
      requires buffer.Some?
      ensures c.SetIndexBuffer? && c.indexBufferId == buffer.value && c.indexFormat == format
      ensures c.indexOffset == range.start
      ensures c.indexSize.None? <==> range.start == range.end
    {
      SetIndexBuffer(buffer.value, format, range.start, NonZeroSize(WrappingSubU64(range.end, range.start)))
    }

    /** `IndexState::flush`: a command iff the state is dirty; afterwards it is clean. */
    function Flush(): (r: (IndexState, Option<RenderCommand>))
      requires isDirty ==> buffer.Some?
      ensures r.0 == this.(isDirty := false)
      ensures r.1.Some? <==> isDirty
      ensures r.1.Some? ==> buffer.Some? && r.1.value == Command()
    {
      if isDirty then (this.(isDirty := false), Some(Command())) else (this, None)
    }

    /** `IndexState::set_format`: dirty only when the format actually changes. */
    function SetFormat(f: IndexFormat): (s: IndexState)
      ensures s.format == f
      ensures s.isDirty <==> isDirty || f != format
      ensures s.buffer == buffer && s.range == range && s.pipelineFormat == pipelineFormat
    {
      if format != f then this.(format := f, isDirty := true) else this
    }

    /** `IndexState::set_buffer`: always dirty. */
    function SetBuffer(id: BufferId, r: BufferRange): (s: IndexState)
      ensures s.buffer == Some(id) && s.range == r && s.isDirty
      ensures s.format == format && s.pipelineFormat == pipelineFormat
    {
      this.(buffer := Some(id), range := r, isDirty := true)
    }
  }

  /** `IndexState::new`. */
  const NEW_INDEX_STATE: IndexState := IndexState(None, DEFAULT_INDEX_FORMAT, None, BufferRange(0, 0), false)

  /**
   * Replaying a flushed `SetIndexBuffer` through the same end computation
   * `finish` uses gives back the recorded range, for every range that
   * computation can have produced (non-empty, or reaching the buffer's end).
   */
  lemma IndexCommandRestoresRange(s: IndexState, bufferSize: U64)
    requires s.buffer.Some? && s.range.start <= s.range.end
    requires s.range.start < s.range.end || s.range.end == bufferSize
    ensures s.Command().indexOffset == s.range.start
    ensures BufferEnd(s.Command().indexOffset, s.Command().indexSize, bufferSize) == s.range.end
  {
  }

  // --------------------------------------------------------------- vertex

  datatype VertexState = VertexState(
    buffer: Option<BufferId>,
    range: BufferRange,
    stride: U64,
    rate: VertexStepMode,
    isDirty: bool)
  {
    /** `VertexState::set_buffer`: always dirty. */
    function SetBuffer(id: BufferId, r: BufferRange): (s: VertexState)
      ensures s.buffer == Some(id) && s.range == r && s.isDirty
      ensures s.stride == stride && s.rate == rate
    {
      this.(buffer := Some(id), range := r, isDirty := true)
    }

    /** The `SetVertexBuffer` command that re-binds this slot. */
    function Command(slot: U32): (c: RenderCommand)
      requires buffer.Some?
      ensures c.SetVertexBuffer? && c.slot == slot && c.vertexBufferId == buffer.value
      ensures c.vertexOffset == range.start
      ensures c.vertexSize.None? <==> range.start == range.end
    {
      SetVertexBuffer(slot, buffer.value, range.start, NonZeroSize(WrappingSubU64(range.end, range.start)))
    }

    /** `VertexState::flush`: a command iff the slot is dirty; afterwards it is clean. */
    function Flush(slot: U32): (r: (VertexState, Option<RenderCommand>))
      requires isDirty ==> buffer.Some?
      ensures r.0 == this.(isDirty := false)
      ensures r.1.Some? <==> isDirty
      ensures r.1.Some? ==> buffer.Some? && r.1.value == Command(slot)
    {
      if isDirty then (this.(isDirty := false), Some(Command(slot))) else (this, None)
    }

    /** One step of the `set_pipeline` zip: dirty only when stride or step mode changes. */
    function Restride(newStride: U64, newRate: VertexStepMode): (s: VertexState)
      ensures s.stride == newStride && s.rate == newRate
      ensures s.isDirty <==> isDirty || newStride != stride || newRate != rate
      ensures s.buffer == buffer && s.range == range
    {
      if stride != newStride || rate != newRate then this.(stride := newStride, rate := newRate, isDirty := true)
      else this
    }

    /** How many whole elements of `stride` bytes the bound range holds, cut to 32 bits. */
    function Limit(): (n: U32)
      requires stride != 0
      ensures range.start <= range.end ==> n == ((range.end - range.start) / stride) % 0x1_0000_0000
    {
      TruncateToU32(WrappingSubU64(range.end, range.start) / stride)
    }
  }

  /** `VertexState::new`. */
  const NEW_VERTEX_STATE: VertexState := VertexState(None, BufferRange(0, 0), 0, Vertex, false)

  /** The vertex-buffer counterpart of `IndexCommandRestoresRange`. */
  lemma VertexCommandRestoresRange(s: VertexState, slot: U32, bufferSize: U64)
    requires s.buffer.Some? && s.range.start <= s.range.end
    requires s.range.start < s.range.end || s.range.end == bufferSize
    ensures s.Command(slot).vertexOffset == s.range.start
    ensures BufferEnd(s.Command(slot).vertexOffset, s.Command(slot).vertexSize, bufferSize) == s.range.end
  {
  }

  /** A slot the vertex limits look at: one with a stride, stepping at `mode`. */
  predicate Steps(vs: VertexState, mode: VertexStepMode)
  {
    vs.stride != 0 && vs.rate == mode
  }

  datatype VertexLimitState = VertexLimitState(vertexLimit: U32, vertexLimitSlot: nat, instanceLimit: U32, instanceLimitSlot: nat)

  const NO_VERTEX_LIMITS: VertexLimitState := VertexLimitState(U32_MAX, 0, U32_MAX, 0)

  /** `State::vertex_limits` over the slots `v`, as a fold from the first slot. */
  function VertexLimitsOf(v: seq<VertexState>): VertexLimitState
  {
    if v == [] then NO_VERTEX_LIMITS
    else
      var acc := VertexLimitsOf(v[..|v| - 1]);
      var vs := v[|v| - 1];
      if vs.stride == 0 then acc
      else if vs.rate == Vertex then
        (if vs.Limit() < acc.vertexLimit then acc.(vertexLimit := vs.Limit(), vertexLimitSlot := |v| - 1) else acc)
      else
        (if vs.Limit() < acc.instanceLimit then acc.(instanceLimit := vs.Limit(), instanceLimitSlot := |v| - 1) else acc)
  }

  /** The limit and slot `vertex_limits` reports for step mode `m`. */
  function LimitFor(r: VertexLimitState, m: VertexStepMode): U32
  {
    if m == Vertex then r.vertexLimit else r.instanceLimit
  }

  function SlotFor(r: VertexLimitState, m: VertexStepMode): nat
  {
    if m == Vertex then r.vertexLimitSlot else r.instanceLimitSlot
  }

  /**
   * For each step mode, the limit is the least element count over the
   * slots of that mode, the slot reported is the FIRST slot reaching it, and
   * with no slot below `u32::MAX` the limit stays `u32::MAX` at slot 0.
   */
  lemma {:induction false} VertexLimitsAreFirstMinima(v: seq<VertexState>, m: VertexStepMode)
    ensures var r := VertexLimitsOf(v);
      && (forall i :: 0 <= i < |v| && Steps(v[i], m) ==> LimitFor(r, m) <= v[i].Limit())
      && (LimitFor(r, m) < U32_MAX ==>
            && SlotFor(r, m) < |v| && Steps(v[SlotFor(r, m)], m)
            && v[SlotFor(r, m)].Limit() == LimitFor(r, m)
            && forall i :: 0 <= i < SlotFor(r, m) && Steps(v[i], m) ==> v[i].Limit() > LimitFor(r, m))
      && (LimitFor(r, m) == U32_MAX ==> SlotFor(r, m) == 0)
  {
    if v != [] {
      var init := v[..|v| - 1];
      VertexLimitsAreFirstMinima(init, m);
      assert forall i :: 0 <= i < |init| ==> init[i] == v[i];
      var acc := VertexLimitsOf(init);
      var r := VertexLimitsOf(v);
      var last := v[|v| - 1];
      if Steps(last, m) && last.Limit() < LimitFor(acc, m) {
        assert LimitFor(r, m) == last.Limit() && SlotFor(r, m) == |v| - 1;
      } else {
        assert LimitFor(r, m) == LimitFor(acc, m) && SlotFor(r, m) == SlotFor(acc, m);
      }
    }
  }

  // ----------------------------------------------------------------- bind

  /** A `Range<usize>` into the pass's dynamic offsets. */
  datatype OffsetRange = OffsetRange(start: nat, end: nat)

  datatype BindState = BindState(bindGroupId: BindGroupId, layoutId: BindGroupLayoutId, dynamicOffsets: OffsetRange, isDirty: bool)
  {
    /** The range lies inside `dynLen` offsets and fits the command's `u8` count. */
    predicate OffsetsWithin(dynLen: nat)
    {
      dynamicOffsets.start <= dynamicOffsets.end <= dynLen && dynamicOffsets.end - dynamicOffsets.start < 0x100
    }
  }

  /** What every bind table entry `finish` records satisfies. */
  predicate BindTableWellFormed(b: seq<Option<BindState>>, dynLen: nat)
  {
    forall i :: 0 <= i < |b| && b[i].Some? ==> b[i].value.OffsetsWithin(dynLen)
  }

  /** A non-empty entry marked dirty; an empty one stays empty. */
  function Dirtied(e: Option<BindState>): Option<BindState>
  {
    if e.Some? then Some(e.value.(isDirty := true)) else None
  }

  /** A non-empty entry marked clean; an empty one stays empty. */
  function Cleaned(e: Option<BindState>): Option<BindState>
  {
    if e.Some? then Some(e.value.(isDirty := false)) else None
  }

  /** `State::invalidate_group_from`: every non-empty entry from `from` on becomes dirty. */
  function InvalidatedFrom(b: seq<Option<BindState>>, from: nat): (r: seq<Option<BindState>>)
    ensures |r| == |b|
    ensures forall i :: 0 <= i < |b| && i < from ==> r[i] == b[i]
    ensures forall i :: from <= i < |b| ==>
              (r[i].None? <==> b[i].None?) && (r[i].Some? ==> r[i].value == b[i].value.(isDirty := true))
  {
    seq(|b|, i requires 0 <= i < |b| => if i < from then b[i] else Dirtied(b[i]))
  }

  /** `State::set_bind_group` on the table `b`. */
  function BindGroupSet(b: seq<Option<BindState>>, slot: nat, id: BindGroupId, layout: BindGroupLayoutId, offsets: OffsetRange): seq<Option<BindState>>
    requires slot < |b|
  {
    if offsets.start >= offsets.end && b[slot].Some? && b[slot].value.bindGroupId == id then b
    else InvalidatedFrom(b[slot := Some(BindState(id, layout, offsets, true))], slot + 1)
  }

  /**
   * Setting the same bind group again without dynamic offsets changes
   * nothing; otherwise the slot holds the new, dirty group, the slots below
   * it are untouched and every non-empty slot above it must be re-sent.
   */
  lemma BindGroupSetEffect(b: seq<Option<BindState>>, slot: nat, id: BindGroupId, layout: BindGroupLayoutId, offsets: OffsetRange)
    requires slot < |b|
    ensures var r := BindGroupSet(b, slot, id, layout, offsets);
      && |r| == |b|
      && (offsets.start >= offsets.end && b[slot].Some? && b[slot].value.bindGroupId == id ==> r == b)
      && (!(offsets.start >= offsets.end && b[slot].Some? && b[slot].value.bindGroupId == id) ==>
            && r[slot] == Some(BindState(id, layout, offsets, true))
            && (forall i :: 0 <= i < slot ==> r[i] == b[i])
            && (forall i :: slot < i < |b| ==> r[i] == Dirtied(b[i])))
  {
  }

  /** `set_bind_group` keeps the table well formed when the new range is. */
  lemma BindGroupSetWellFormed(b: seq<Option<BindState>>, slot: nat, id: BindGroupId, layout: BindGroupLayoutId, offsets: OffsetRange, dynLen: nat)
    requires slot < |b| && BindTableWellFormed(b, dynLen)
    requires BindState(id, layout, offsets, true).OffsetsWithin(dynLen)
    ensures BindTableWellFormed(BindGroupSet(b, slot, id, layout, offsets), dynLen)
  {
    var r := BindGroupSet(b, slot, id, layout, offsets);
    forall i | 0 <= i < |r| && r[i].Some?
      ensures r[i].value.OffsetsWithin(dynLen)
    {
      if !(offsets.start >= offsets.end && b[slot].Some? && b[slot].value.bindGroupId == id) && i > slot {
        assert r[i] == Dirtied(b[i]);
      }
    }
  }

  /**
   * The `position` search of `set_pipeline`, from entry `from` on: the first
   * non-empty entry whose layout differs from the new pipeline's.
   */
  function FirstLayoutMismatch(b: seq<Option<BindState>>, ids: seq<BindGroupLayoutId>, from: nat): Option<nat>
    decreases |b| - from
  {
    if from >= |b| || from >= |ids| then None
    else if b[from].Some? && b[from].value.layoutId != ids[from] then Some(from)
    else FirstLayoutMismatch(b, ids, from + 1)
  }

  predicate LayoutMismatch(b: seq<Option<BindState>>, ids: seq<BindGroupLayoutId>, i: nat)
    requires i < |b| && i < |ids|
  {
    b[i].Some? && b[i].value.layoutId != ids[i]
  }

  /** The search finds exactly the first mismatching entry, or reports there is none. */
  lemma {:induction false} FirstLayoutMismatchIsFirst(b: seq<Option<BindState>>, ids: seq<BindGroupLayoutId>, from: nat)
    ensures var r := FirstLayoutMismatch(b, ids, from);
      && (r.Some? ==>
            && from <= r.value < |b| && r.value < |ids| && LayoutMismatch(b, ids, r.value)
            && forall i :: from <= i < r.value ==> !LayoutMismatch(b, ids, i))
      && (r.None? ==> forall i :: from <= i < |b| && i < |ids| ==> !LayoutMismatch(b, ids, i))
    decreases |b| - from
  {
    if from < |b| && from < |ids| && !LayoutMismatch(b, ids, from) {
      FirstLayoutMismatchIsFirst(b, ids, from + 1);
    }
  }

  /** The bind table after `set_pipeline`. */
  function PipelineRebound(b: seq<Option<BindState>>, pushConstantsChanged: bool, ids: seq<BindGroupLayoutId>): seq<Option<BindState>>
  {
    var invalidFrom := if pushConstantsChanged then Some(0) else FirstLayoutMismatch(b, ids, 0);
    match invalidFrom
    case Some(slot) => InvalidatedFrom(b, slot)
    case None => b
  }

  /**
   * After `set_pipeline`, a non-empty entry is dirty iff it was dirty before,
   * or the push-constant layout changed, or it sits at or after the first
   * entry whose layout the new pipeline does not share.
   */
  lemma PipelineReboundDirties(b: seq<Option<BindState>>, changed: bool, ids: seq<BindGroupLayoutId>, i: nat)
    requires i < |b|
    ensures var r := PipelineRebound(b, changed, ids);
      && |r| == |b| && (r[i].None? <==> b[i].None?)
      && (r[i].Some? ==>
            && r[i].value.(isDirty := b[i].value.isDirty) == b[i].value
            && (r[i].value.isDirty <==>
                  b[i].value.isDirty || changed
                  || exists j :: 0 <= j <= i && j < |ids| && LayoutMismatch(b, ids, j)))
  {
    FirstLayoutMismatchIsFirst(b, ids, 0);
    var r := PipelineRebound(b, changed, ids);
    if r[i].Some? && !changed && !b[i].value.isDirty && r[i].value.isDirty {
      var j := FirstLayoutMismatch(b, ids, 0).value;
      assert 0 <= j <= i && j < |ids| && LayoutMismatch(b, ids, j);
    }
  }

  // ------------------------------------------------------- push constants

  datatype PushConstantState = PushConstantState(ranges: seq<PushConstantRange>, isDirty: bool)
  {
    /**
     * `PushConstantState::set_push_constants`: adopts the new ranges, and
     * reports (and marks dirty) a change. Nothing ever clears the flag.
     */
    function SetPushConstants(newRanges: seq<PushConstantRange>): (r: (PushConstantState, bool))
      ensures r.0.ranges == newRanges
      ensures r.1 <==> ranges != newRanges
      ensures r.0.isDirty <==> isDirty || r.1
    {
      if ranges != newRanges then (PushConstantState(newRanges, true), true) else (this, false)
    }

    /**
     * `State::flush_push_constants`: while dirty, one data-less
     * `SetPushConstant` per range `split` (the source's
     * `compute_nonoverlapping_ranges`) makes of the current ranges.
     */
    function Flush(split: seq<PushConstantRange> -> seq<PushConstantRange>): (r: Option<seq<RenderCommand>>)
      ensures r.Some? <==> isDirty
      ensures r.Some? ==> |r.value| == |split(ranges)|
      ensures r.Some? ==> forall i :: 0 <= i < |r.value| ==>
                var p := split(ranges)[i];
                && r.value[i].SetPushConstant? && r.value[i].valuesOffset.None?
                && r.value[i].stages == p.stages && r.value[i].offset == p.start
                && (p.start <= p.end ==> r.value[i].offset + r.value[i].sizeBytes == p.end)
    {
      if isDirty then
        var parts := split(ranges);
        Some(seq(|parts|, i requires 0 <= i < |parts| =>
          SetPushConstant(parts[i].stages, parts[i].start, WrappingSubU32(parts[i].end, parts[i].start), None)))
      else None
    }
  }

  const NEW_PUSH_CONSTANT_STATE: PushConstantState := PushConstantState([], false)

  // --------------------------------------------------------------- flushes

  /** The slots are flushable: a dirty slot has a buffer (`flush` unwraps it). */
  predicate VerticesFlushable(v: seq<VertexState>)
  {
    forall i :: 0 <= i < |v| ==> (v[i].isDirty ==> v[i].buffer.Some?)
  }

  /** The commands `State::flush_vertices` yields for slots `v`, in slot order. */
  function VertexFlushCommands(v: seq<VertexState>): seq<RenderCommand>
    requires VerticesFlushable(v) && |v| <= 0x1_0000_0000
  {
    if v == [] then []
    else
      var last := v[|v| - 1];
      VertexFlushCommands(v[..|v| - 1]) + (if last.isDirty then [last.Command(|v| - 1)] else [])
  }

  function CleanedVertices(v: seq<VertexState>): (r: seq<VertexState>)
    ensures |r| == |v|
    ensures forall i :: 0 <= i < |v| ==> r[i] == v[i].(isDirty := false)
  {
    seq(|v|, i requires 0 <= i < |v| => v[i].(isDirty := false))
  }

  /**
   * `flush_vertices` yields one `SetVertexBuffer` per dirty slot, re-binding
   * that slot, in increasing slot order, and nothing else.
   */
  lemma {:induction false} VertexFlushCommandsAreDirtySlots(v: seq<VertexState>)
    requires VerticesFlushable(v) && |v| <= 0x1_0000_0000
    ensures var cs := VertexFlushCommands(v);
      && (forall c :: c in cs ==> c.SetVertexBuffer? && c.slot < |v| && v[c.slot].isDirty && c == v[c.slot].Command(c.slot))
      && (forall i :: 0 <= i < |v| && v[i].isDirty ==> v[i].Command(i) in cs)
      && (forall j, k :: 0 <= j < k < |cs| ==> cs[j].slot < cs[k].slot)
  {
    if v != [] {
      var init := v[..|v| - 1];
      assert forall i :: 0 <= i < |init| ==> init[i] == v[i];
      VertexFlushCommandsAreDirtySlots(init);
      var pre := VertexFlushCommands(init);
      var extra := if v[|v| - 1].isDirty then [v[|v| - 1].Command(|v| - 1)] else [];
      var cs := VertexFlushCommands(v);
      assert cs == pre + extra;
      forall c | c in cs
        ensures c.SetVertexBuffer? && c.slot < |v| && v[c.slot].isDirty && c == v[c.slot].Command(c.slot)
      {
        if c in pre {
          assert init[c.slot] == v[c.slot];
        }
      }
      forall j, k | 0 <= j < k < |cs|
        ensures cs[j].slot < cs[k].slot
      {
        if k >= |pre| {
          assert cs[j] in pre;
        }
      }
    }
  }

  /** Flushing again right after a flush yields nothing. */
  lemma {:induction false} VertexFlushIsIdempotent(v: seq<VertexState>)
    requires |v| <= 0x1_0000_0000
    ensures VerticesFlushable(CleanedVertices(v))
    ensures VertexFlushCommands(CleanedVertices(v)) == []
  {
    if v != [] {
      var init := v[..|v| - 1];
      VertexFlushIsIdempotent(init);
      assert CleanedVertices(v)[..|v| - 1] == CleanedVertices(init);
    }
  }

  /** The `SetBindGroup` command that re-binds entry `s` at `index`. */
  function BindCommand(index: U8, s: BindState): (c: RenderCommand)
    requires s.dynamicOffsets.start <= s.dynamicOffsets.end && s.dynamicOffsets.end - s.dynamicOffsets.start < 0x100
    ensures c.SetBindGroup? && c.index == index && c.bindGroupId == s.bindGroupId
    ensures c.numDynamicOffsets == s.dynamicOffsets.end - s.dynamicOffsets.start
  {
    SetBindGroup(index, s.dynamicOffsets.end - s.dynamicOffsets.start, s.bindGroupId)
  }

  predicate IsDirtyEntry(e: Option<BindState>)
  {
    e.Some? && e.value.isDirty
  }

  /** The commands the second half of `State::flush_binds` yields for entries `b`. */
  function BindFlushCommands(b: seq<Option<BindState>>, dynLen: nat): seq<RenderCommand>
    requires BindTableWellFormed(b, dynLen) && |b| <= 0x100
  {
    if b == [] then []
    else
      var last := b[|b| - 1];
      BindFlushCommands(b[..|b| - 1], dynLen) + (if IsDirtyEntry(last) then [BindCommand(|b| - 1, last.value)] else [])
  }

  /** The offsets the first half of `State::flush_binds` appends for entries `b`. */
  function DirtyOffsets(b: seq<Option<BindState>>, dyn: seq<DynamicOffset>): seq<DynamicOffset>
    requires BindTableWellFormed(b, |dyn|)
  {
    if b == [] then []
    else
      var last := b[|b| - 1];
      DirtyOffsets(b[..|b| - 1], dyn)
      + (if IsDirtyEntry(last) then dyn[last.value.dynamicOffsets.start..last.value.dynamicOffsets.end] else [])
  }

  function CleanedBinds(b: seq<Option<BindState>>, used: nat): (r: seq<Option<BindState>>)
    ensures |r| == |b|
    ensures forall i :: 0 <= i < |b| ==> r[i] == if i < used then Cleaned(b[i]) else b[i]
  {
    seq(|b|, i requires 0 <= i < |b| => if i < used then Cleaned(b[i]) else b[i])
  }

  /**
   * `flush_binds` yields one `SetBindGroup` per dirty entry, re-binding it,
   * in increasing index order, and nothing else.
   */
  lemma {:induction false} BindFlushCommandsAreDirtyEntries(b: seq<Option<BindState>>, dynLen: nat)
    requires BindTableWellFormed(b, dynLen) && |b| <= 0x100
    ensures var cs := BindFlushCommands(b, dynLen);
      && (forall c :: c in cs ==>
            c.SetBindGroup? && c.index < |b| && IsDirtyEntry(b[c.index]) && c == BindCommand(c.index, b[c.index].value))
      && (forall i :: 0 <= i < |b| && IsDirtyEntry(b[i]) ==> BindCommand(i, b[i].value) in cs)
      && (forall j, k :: 0 <= j < k < |cs| ==> cs[j].index < cs[k].index)
  {
    if b != [] {
      var init := b[..|b| - 1];
      assert forall i :: 0 <= i < |init| ==> init[i] == b[i];
      BindFlushCommandsAreDirtyEntries(init, dynLen);
      var pre := BindFlushCommands(init, dynLen);
      var extra := if IsDirtyEntry(b[|b| - 1]) then [BindCommand(|b| - 1, b[|b| - 1].value)] else [];
      var cs := BindFlushCommands(b, dynLen);
      assert cs == pre + extra;
      forall c | c in cs
        ensures c.SetBindGroup? && c.index < |b| && IsDirtyEntry(b[c.index]) && c == BindCommand(c.index, b[c.index].value)
      {
        if c in pre {
          assert init[c.index] == b[c.index];
        }
      }
      forall j, k | 0 <= j < k < |cs|
        ensures cs[j].index < cs[k].index
      {
        if k >= |pre| {
          assert cs[j] in pre;
        }
      }
    }
  }

  /**
   * The offsets appended are exactly as many as the generated commands
   * declare, so the finished bundle's commands and offsets stay in step.
   */
  lemma {:induction false} DirtyOffsetsMatchCommands(b: seq<Option<BindState>>, dyn: seq<DynamicOffset>)
    requires BindTableWellFormed(b, |dyn|) && |b| <= 0x100
    ensures |DirtyOffsets(b, dyn)| == DynamicOffsetCount(BindFlushCommands(b, |dyn|))
  {
    if b != [] {
      var init := b[..|b| - 1];
      DirtyOffsetsMatchCommands(init, dyn);
      var extra := if IsDirtyEntry(b[|b| - 1]) then [BindCommand(|b| - 1, b[|b| - 1].value)] else [];
      DynamicOffsetCountAppend(BindFlushCommands(init, |dyn|), extra);
      if extra != [] {
        assert extra[..0] == [];
      }
    }
  }

  /**
   * The offsets a run of commands `cs` reads when replayed against the
   * entries `b`: for each `SetBindGroup`, the slice of `dyn` recorded for
   * the entry it binds.
   */
  function ResentOffsets(cs: seq<RenderCommand>, b: seq<Option<BindState>>, dyn: seq<DynamicOffset>): seq<DynamicOffset>
    requires BindTableWellFormed(b, |dyn|)
  {
    if cs == [] then []
    else
      var c := cs[|cs| - 1];
      ResentOffsets(cs[..|cs| - 1], b, dyn)
      + (if c.SetBindGroup? && c.index < |b| && b[c.index].Some?
         then dyn[b[c.index].value.dynamicOffsets.start..b[c.index].value.dynamicOffsets.end]
         else [])
  }

  lemma {:induction false} ResentOffsetsAppend(cs: seq<RenderCommand>, ds: seq<RenderCommand>, b: seq<Option<BindState>>, dyn: seq<DynamicOffset>)
    requires BindTableWellFormed(b, |dyn|)
    ensures ResentOffsets(cs + ds, b, dyn) == ResentOffsets(cs, b, dyn) + ResentOffsets(ds, b, dyn)
    decreases |ds|
  {
    if ds == [] {
      assert cs + ds == cs;
    } else {
      assert (cs + ds)[..|cs + ds| - 1] == cs + ds[..|ds| - 1];
      ResentOffsetsAppend(cs, ds[..|ds| - 1], b, dyn);
    }
  }

  /** Only the entries the commands bind matter to `ResentOffsets`. */
  lemma {:induction false} ResentOffsetsAgree(cs: seq<RenderCommand>, b: seq<Option<BindState>>, b': seq<Option<BindState>>, dyn: seq<DynamicOffset>)
    requires BindTableWellFormed(b, |dyn|) && BindTableWellFormed(b', |dyn|) && |b| <= |b'|
    requires forall i :: 0 <= i < |b| ==> b[i] == b'[i]
    requires forall c :: c in cs ==> c.SetBindGroup? && c.index < |b|
    ensures ResentOffsets(cs, b, dyn) == ResentOffsets(cs, b', dyn)
    decreases |cs|
  {
    if cs != [] {
      assert forall c :: c in cs[..|cs| - 1] ==> c in cs;
      assert cs[|cs| - 1] in cs;
      ResentOffsetsAgree(cs[..|cs| - 1], b, b', dyn);
    }
  }

  /**
   * The offsets the first half of `flush_binds` appends are, command by
   * command, the recorded slice of `dyn` of the group each re-bind command
   * of the second half names: the bundle's offsets line up with its
   * `SetBindGroup` commands.
   */
  lemma {:induction false} DirtyOffsetsAreResentSlices(b: seq<Option<BindState>>, dyn: seq<DynamicOffset>)
    requires BindTableWellFormed(b, |dyn|) && |b| <= 0x100
    ensures DirtyOffsets(b, dyn) == ResentOffsets(BindFlushCommands(b, |dyn|), b, dyn)
  {
    if b != [] {
      var init := b[..|b| - 1];
      var pre := BindFlushCommands(init, |dyn|);
      var extra := if IsDirtyEntry(b[|b| - 1]) then [BindCommand(|b| - 1, b[|b| - 1].value)] else [];
      DirtyOffsetsAreResentSlices(init, dyn);
      BindFlushCommandsAreDirtyEntries(init, |dyn|);
      ResentOffsetsAgree(pre, init, b, dyn);
      ResentOffsetsAppend(pre, extra, b, dyn);
      if extra != [] {
        assert extra[..0] == [];
      }
    }
  }

  /** Flushing the same entries again right after a flush yields nothing. */
  lemma {:induction false} BindFlushIsIdempotent(b: seq<Option<BindState>>, used: nat, dynLen: nat)
    requires BindTableWellFormed(b, dynLen) && used <= |b| <= 0x100
    ensures BindTableWellFormed(CleanedBinds(b, used)[..used], dynLen)
    ensures BindFlushCommands(CleanedBinds(b, used)[..used], dynLen) == []
    decreases used
  {
    if used > 0 {
      BindFlushIsIdempotent(b, used - 1, dynLen);
      assert CleanedBinds(b, used)[..used][..used - 1] == CleanedBinds(b, used - 1)[..used - 1];
    }
  }

  // ---------------------------------------------------------------- State

  /** `State`: the simulated state, minus its resource trackers. */
  class State {
    var index: IndexState
    const vertex: array<VertexState>
    const bind: array<Option<BindState>>
    var pushConstants: PushConstantState
    var flatDynamicOffsets: seq<DynamicOffset>
    var usedBindGroups: nat
    var pipeline: Option<RenderPipelineId>

    ghost predicate Valid()
      reads this
    {
      vertex.Length == MAX_VERTEX_BUFFERS && bind.Length == MAX_BIND_GROUPS && usedBindGroups <= MAX_BIND_GROUPS
    }

    /** The state `finish` starts from. */
    constructor()
      ensures Valid() && fresh(vertex) && fresh(bind)
      ensures index == NEW_INDEX_STATE && pushConstants == NEW_PUSH_CONSTANT_STATE
      ensures forall i :: 0 <= i < vertex.Length ==> vertex[i] == NEW_VERTEX_STATE
      ensures forall i :: 0 <= i < bind.Length ==> bind[i].None?
      ensures flatDynamicOffsets == [] && usedBindGroups == 0 && pipeline.None?
    {
      index := NEW_INDEX_STATE;
      vertex := new VertexState[MAX_VERTEX_BUFFERS](_ => NEW_VERTEX_STATE);
      bind := new Option<BindState>[MAX_BIND_GROUPS](_ => None);
      pushConstants := NEW_PUSH_CONSTANT_STATE;
      flatDynamicOffsets := [];
      usedBindGroups := 0;
      pipeline := None;
    }

    /** `State::vertex_limits`. */
    method VertexLimits() returns (r: VertexLimitState)
      requires Valid()
      ensures r == VertexLimitsOf(vertex[..])
    {
      r := NO_VERTEX_LIMITS;
      for idx := 0 to vertex.Length
        invariant r == VertexLimitsOf(vertex[..idx])
      {
        assert vertex[..idx + 1][..idx] == vertex[..idx];
        var vs := vertex[idx];
        if vs.stride == 0 {
          continue;
        }
        var limit := vs.Limit();
        match vs.rate
        case Vertex =>
          if limit < r.vertexLimit {
            r := r.(vertexLimit := limit, vertexLimitSlot := idx);
          }
        case Instance =>
          if limit < r.instanceLimit {
            r := r.(instanceLimit := limit, instanceLimitSlot := idx);
          }
      }
      assert vertex[..vertex.Length] == vertex[..];
    }

    /** `State::invalidate_group_from`. */
    method InvalidateGroupFrom(from: nat)
      requires Valid() && from <= bind.Length
      modifies bind
      ensures bind[..] == InvalidatedFrom(old(bind[..]), from)
    {
      for i := from to bind.Length
        invariant forall k :: 0 <= k < bind.Length ==>
                    bind[k] == if from <= k < i then Dirtied(old(bind[k])) else old(bind[k])
      {
        bind[i] := Dirtied(bind[i]);
      }
    }

    /** `State::set_bind_group`. */
    method SetBindGroup(slot: U8, id: BindGroupId, layout: BindGroupLayoutId, offsets: OffsetRange)
      requires Valid() && slot < bind.Length
      modifies bind
      ensures bind[..] == BindGroupSet(old(bind[..]), slot, id, layout, offsets)
    {
      if offsets.start >= offsets.end {
        if bind[slot].Some? && bind[slot].value.bindGroupId == id {
          return;
        }
      }
      bind[slot] := Some(BindState(id, layout, offsets, true));
      InvalidateGroupFrom(slot + 1);
    }

    /** `State::set_pipeline`. */
    method SetPipeline(indexFormat: Option<IndexFormat>, strides: seq<(U64, VertexStepMode)>,
                       layoutIds: seq<BindGroupLayoutId>, pushConstantRanges: seq<PushConstantRange>)
      requires Valid() && |layoutIds| <= MAX_BIND_GROUPS
      modifies this, vertex, bind
      ensures Valid()
      ensures index == old(index).(pipelineFormat := indexFormat)
      ensures forall i :: 0 <= i < vertex.Length ==>
                vertex[i] == if i < |strides| then old(vertex[i]).Restride(strides[i].0, strides[i].1) else old(vertex[i])
      ensures pushConstants == old(pushConstants).SetPushConstants(pushConstantRanges).0
      ensures usedBindGroups == |layoutIds|
      ensures bind[..] == PipelineRebound(old(bind[..]), old(pushConstants).SetPushConstants(pushConstantRanges).1, layoutIds)
      ensures flatDynamicOffsets == old(flatDynamicOffsets) && pipeline == old(pipeline)
    {
      index := index.(pipelineFormat := indexFormat);
      for i := 0 to if |strides| < vertex.Length then |strides| else vertex.Length
        modifies vertex
        invariant forall k :: 0 <= k < vertex.Length ==>
                    vertex[k] == if k < i then old(vertex[k]).Restride(strides[k].0, strides[k].1) else old(vertex[k])
      {
        vertex[i] := vertex[i].Restride(strides[i].0, strides[i].1);
      }
      var changed;
      pushConstants, changed := pushConstants.SetPushConstants(pushConstantRanges).0, pushConstants.SetPushConstants(pushConstantRanges).1;
      usedBindGroups := |layoutIds|;
      assert bind[..] == old(bind[..]);
      var invalidFrom := if changed then Some(0) else FirstLayoutMismatch(bind[..], layoutIds, 0);
      if invalidFrom.Some? {
        FirstLayoutMismatchIsFirst(bind[..], layoutIds, 0);
        InvalidateGroupFrom(invalidFrom.value);
      }
    }

    /** `State::flush_vertices`. */
    method FlushVertices() returns (cmds: seq<RenderCommand>)
      requires Valid() && VerticesFlushable(vertex[..])
      modifies vertex
      ensures cmds == VertexFlushCommands(old(vertex[..]))
      ensures vertex[..] == CleanedVertices(old(vertex[..]))
    {
      cmds := [];
      for i := 0 to vertex.Length
        invariant forall k :: 0 <= k < vertex.Length ==>
                    vertex[k] == if k < i then old(vertex[k]).(isDirty := false) else old(vertex[k])
        invariant cmds == VertexFlushCommands(old(vertex[..])[..i])
      {
        assert old(vertex[..])[..i + 1][..i] == old(vertex[..])[..i];
        var flushed := vertex[i].Flush(i);
        vertex[i] := flushed.0;
        if flushed.1.Some? {
          cmds := cmds + [flushed.1.value];
        }
      }
      assert old(vertex[..])[..vertex.Length] == old(vertex[..]);
    }

    /** `State::flush_binds`: append the dirty entries' offsets, then yield their commands. */
    method FlushBinds(dyn: seq<DynamicOffset>) returns (cmds: seq<RenderCommand>)
      requires Valid() && BindTableWellFormed(bind[..], |dyn|)
      modifies `flatDynamicOffsets, bind
      ensures flatDynamicOffsets == old(flatDynamicOffsets) + DirtyOffsets(old(bind[..])[..usedBindGroups], dyn)
      ensures cmds == BindFlushCommands(old(bind[..])[..usedBindGroups], |dyn|)
      ensures bind[..] == CleanedBinds(old(bind[..]), usedBindGroups)
    {
      for i := 0 to usedBindGroups
        modifies `flatDynamicOffsets
        invariant flatDynamicOffsets == old(flatDynamicOffsets) + DirtyOffsets(bind[..i], dyn)
      {
        assert bind[..i + 1][..i] == bind[..i];
        var e := bind[i];
        if e.Some? && e.value.isDirty {
          flatDynamicOffsets := flatDynamicOffsets + dyn[e.value.dynamicOffsets.start..e.value.dynamicOffsets.end];
        }
      }
      assert bind[..usedBindGroups] == old(bind[..])[..usedBindGroups];
      cmds := [];
      for i := 0 to usedBindGroups
        modifies bind
        invariant forall k :: 0 <= k < bind.Length ==>
                    bind[k] == if k < i then Cleaned(old(bind[k])) else old(bind[k])
        invariant cmds == BindFlushCommands(old(bind[..])[..i], |dyn|)
      {
        assert old(bind[..])[..i + 1][..i] == old(bind[..])[..i];
        var e := bind[i];
        if e.Some? && e.value.isDirty {
          bind[i] := Some(e.value.(isDirty := false));
          cmds := cmds + [BindCommand(i, e.value)];
        }
      }
    }
  }
}
