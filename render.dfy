/**
 * The render pass: its draw state (blend colour and stencil reference status, the
 * bound index buffer and its limit, the vertex buffer slots and their limits), the
 * binder it shares the rebinding logic of with the compute pass, and the checks each
 * entry point makes before it records a command.
 */
module Render {
  import opened Wrappers
  import BufferUsage
  import Track
  import Bind
  import DeviceValidation
  import opened PassCommon

  type BufferId = nat

  const U32_MAX: nat := 0xFFFF_FFFF

  /** Whether a draw needs a value the user has to set: not needed, needed and missing, or set. */
  datatype OptionalState = Unused | Required | Set

  /** `OptionalState::require`: a pipeline that needs the value makes an unused one required. */
  function Require(s: OptionalState, required: bool): (r: OptionalState)
    ensures r != s ==> s == Unused && r == Required
    ensures required ==> r != Unused
    ensures !required ==> r == s
  {
    if required && s == Unused then Required else s
  }

  /**
   * Requiring only ever raises the status, a set value stays set whatever pipeline
   * follows, and requiring twice is requiring once with either need.
   */
  lemma RequireMonotone(s: OptionalState, a: bool, b: bool)
    ensures Require(Set, a) == Set && Require(Required, a) == Required
    ensures Require(Require(s, a), b) == Require(s, a || b)
    ensures Require(s, a) == Required <==> s == Required || (s == Unused && a)
  {
  }

  /**
   * `is_ready`: a draw needs every expected bind group in place (the lowest slot that
   * is not is reported), then a blend colour if one is required, then a stencil
   * reference if one is required.
   */
  function Readiness(es: seq<Bind.EntryState>, blendColor: OptionalState, stencilReference: OptionalState): (r: Result<(), DrawError>)
    requires |es| == Bind.MAX_BIND_GROUPS
    ensures r.Success? <==> (forall i :: 0 <= i < |es| ==> es[i].IsValid()) && blendColor != Required && stencilReference != Required
    ensures r.Failure? && r.error.IncompatibleBindGroup? <==> exists i :: 0 <= i < |es| && !es[i].IsValid()
    ensures r.Failure? && r.error.IncompatibleBindGroup? ==>
      r.error.index < |es| && !es[r.error.index].IsValid() && forall i :: 0 <= i < r.error.index ==> es[i].IsValid()
    ensures r == Failure(MissingBlendColor) <==> (forall i :: 0 <= i < |es| ==> es[i].IsValid()) && blendColor == Required
  {
    var mask := Bind.InvalidMask(es);
    Bind.MaskAgreesWithCompatibleCount(es);
    if mask != 0 then Failure(IncompatibleBindGroup(Bind.TrailingZeros(mask)))
    else if blendColor == Required then Failure(MissingBlendColor)
    else if stencilReference == Required then Failure(MissingStencilReference)
    else Success(())
  }

  /** Bytes per index. */
  function IndexSize(format: DeviceValidation.IndexFormat): nat {
    match format
    case Uint16 => 2
    case Uint32 => 4
  }

  /** The index buffer bound to a pass and the byte range it is used from. */
  datatype IndexBufferView = IndexBufferView(buffer: BufferId, start: nat, end: nat)

  /**
   * `update_limit`: how many indices of the format the bound range holds, truncated to
   * `u32`; nothing bound means no index may be drawn. The limit never lets a draw read
   * past the end of the range.
   */
  function IndexLimit(view: Option<IndexBufferView>, format: DeviceValidation.IndexFormat): (n: nat)
    requires view.Some? ==> view.value.start <= view.value.end
    ensures n <= U32_MAX
    ensures view.None? ==> n == 0
    ensures view.Some? ==> n * IndexSize(format) <= view.value.end - view.value.start
  {
    match view
    case None => 0
    case Some(v) =>
      var length := v.end - v.start;
      var count := length / IndexSize(format);
      var n := count % U32_RANGE;
      assert n * IndexSize(format) <= count * IndexSize(format) <= length;
      n
  }

  /** Without truncation the limit is exact: one index more would pass the end of the range. */
  lemma IndexLimitExact(v: IndexBufferView, format: DeviceValidation.IndexFormat)
    requires v.start <= v.end && (v.end - v.start) / IndexSize(format) <= U32_MAX
    ensures (IndexLimit(Some(v), format) + 1) * IndexSize(format) > v.end - v.start
  {
  }

  /** The index-buffer part of a pass. */
  class IndexState {
    var boundBufferView: Option<IndexBufferView>
    var format: DeviceValidation.IndexFormat
    var limit: nat

    predicate Valid()
      reads this
    {
      (boundBufferView.Some? ==> boundBufferView.value.start <= boundBufferView.value.end)
      && limit == IndexLimit(boundBufferView, format)
    }

    constructor ()
      ensures Valid() && boundBufferView == None && format == DeviceValidation.Uint16 && limit == 0
    {
      boundBufferView := None;
      format := DeviceValidation.Uint16;
      limit := 0;
    }

    /** `update_limit`. */
    method UpdateLimit()
      requires boundBufferView.Some? ==> boundBufferView.value.start <= boundBufferView.value.end
      modifies this
      ensures Valid() && boundBufferView == old(boundBufferView) && format == old(format)
    {
      match boundBufferView {
        case None =>
          limit := 0;
        case Some(v) =>
          var shift := match format case Uint16 => 1 case Uint32 => 2;
          var count := if shift == 1 then (v.end - v.start) / 2 else (v.end - v.start) / 4;
          limit := count % U32_RANGE;
      }
    }
  }

  /** A vertex buffer slot: the bytes bound from the offset on, and the pipeline's stride and step rate. */
  datatype VertexBufferState = VertexBufferState(totalSize: nat, stride: nat, rate: DeviceValidation.InputStepMode)

  const EMPTY_VERTEX_BUFFER: VertexBufferState := VertexBufferState(0, 0, DeviceValidation.Vertex)

  /** A slot limits draws stepping at `rate` when it steps at that rate with a non-zero stride. */
  predicate Limits(v: VertexBufferState, rate: DeviceValidation.InputStepMode) {
    v.stride != 0 && v.rate == rate
  }

  /** How many elements a slot holds, truncated to `u32`. */
  function SlotLimit(v: VertexBufferState): (n: nat)
    requires v.stride != 0
    ensures n <= U32_MAX && n * v.stride <= v.totalSize
    ensures v.totalSize / v.stride <= U32_MAX ==> v.totalSize < (n + 1) * v.stride
  {
    var count := v.totalSize / v.stride;
    var n := count % U32_RANGE;
    MulMonotone(n, count, v.stride);
    DivMulBound(v.totalSize, v.stride);
    DivNextExceeds(v.totalSize, v.stride);
    n
  }

  /** The limits over one more slot. */
  lemma RateLimitStep(vs: seq<VertexBufferState>, i: nat)
    requires i < |vs|
    ensures forall rate :: RateLimit(vs[..i + 1], rate) ==
                           if Limits(vs[i], rate) then Bind.Min(RateLimit(vs[..i], rate), SlotLimit(vs[i])) else RateLimit(vs[..i], rate)
  {
    assert vs[..i + 1][..i] == vs[..i];
  }

  lemma DivMulBound(a: nat, b: nat)
    requires b != 0
    ensures (a / b) * b <= a
  {
  }

  lemma DivNextExceeds(a: nat, b: nat)
    requires b != 0
    ensures a < (a / b + 1) * b
  {
  }

  /**
   * The limit `update_limits` computes for one step rate: the least element count over
   * the slots stepping at that rate, or `u32::MAX` when no slot does.
   */
  function RateLimit(vs: seq<VertexBufferState>, rate: DeviceValidation.InputStepMode): (n: nat)
    ensures n <= U32_MAX
    ensures forall i :: 0 <= i < |vs| && Limits(vs[i], rate) ==> n <= SlotLimit(vs[i])
    ensures n == U32_MAX || exists i :: 0 <= i < |vs| && Limits(vs[i], rate) && n == SlotLimit(vs[i])
    ensures (forall i :: 0 <= i < |vs| ==> !Limits(vs[i], rate)) ==> n == U32_MAX
  {
    if |vs| == 0 then U32_MAX
    else
      var prefix := vs[..|vs| - 1];
      var m := RateLimit(prefix, rate);
      var last := vs[|vs| - 1];
      assert forall i :: 0 <= i < |prefix| ==> prefix[i] == vs[i];
      if Limits(last, rate) then Bind.Min(m, SlotLimit(last)) else m
  }

  /**
   * A draw within the limit of a rate reads inside every slot stepping at that rate:
   * the last element it fetches ends within the bytes bound there.
   */
  lemma RateLimitSound(vs: seq<VertexBufferState>, rate: DeviceValidation.InputStepMode, count: nat, i: nat)
    requires count <= RateLimit(vs, rate)
    requires i < |vs| && Limits(vs[i], rate)
    ensures count * vs[i].stride <= vs[i].totalSize
  {
    MulMonotone(count, SlotLimit(vs[i]), vs[i].stride);
  }

  /** Fetching `count` elements stays inside every slot stepping at `rate`. */
  predicate WithinSlots(vs: seq<VertexBufferState>, rate: DeviceValidation.InputStepMode, count: nat) {
    forall i :: 0 <= i < |vs| && Limits(vs[i], rate) ==> count * vs[i].stride <= vs[i].totalSize
  }

  /** A draw within the limit of a rate reads inside all the slots stepping at that rate. */
  lemma RateLimitSoundAll(vs: seq<VertexBufferState>, rate: DeviceValidation.InputStepMode, count: nat)
    requires count <= RateLimit(vs, rate)
    ensures WithinSlots(vs, rate, count)
  {
    forall i | 0 <= i < |vs| && Limits(vs[i], rate)
      ensures count * vs[i].stride <= vs[i].totalSize
    {
      RateLimitSound(vs, rate, count, i);
    }
  }

  lemma MulMonotone(a: nat, b: nat, c: nat)
    requires a <= b
    ensures a * c <= b * c
  {
  }

  /** The vertex-buffer part of a pass: eight slots and the two limits derived from them. */
  class VertexState {
    const inputs: array<VertexBufferState>
    var vertexLimit: nat
    var instanceLimit: nat

    /**
     * The limits never exceed what the slots allow; they equal it after every update,
     * and are 0 before the first one.
     */
    predicate Valid()
      reads this, inputs
    {
      inputs.Length == DeviceValidation.MAX_VERTEX_BUFFERS
      && vertexLimit <= RateLimit(inputs[..], DeviceValidation.Vertex)
      && instanceLimit <= RateLimit(inputs[..], DeviceValidation.Instance)
    }

    constructor ()
      ensures Valid() && fresh(inputs)
      ensures inputs[..] == seq(DeviceValidation.MAX_VERTEX_BUFFERS, _ => EMPTY_VERTEX_BUFFER)
      ensures vertexLimit == 0 && instanceLimit == 0
    {
      inputs := new VertexBufferState[DeviceValidation.MAX_VERTEX_BUFFERS](_ => EMPTY_VERTEX_BUFFER);
      vertexLimit := 0;
      instanceLimit := 0;
    }

    /** The size half of `set_vertex_buffers`: slot `start + k` now holds `sizes[k]` bytes. */
    method SetTotalSizes(start: nat, sizes: seq<nat>)
      requires start + |sizes| <= inputs.Length
      modifies inputs
      ensures inputs[..] == WithTotalSizes(old(inputs[..]), start, sizes)
    {
      var k := 0;
      while k < |sizes|
        invariant 0 <= k <= |sizes|
        invariant inputs[..] == WithTotalSizes(old(inputs[..]), start, sizes[..k])
      {
        inputs[start + k] := inputs[start + k].(totalSize := sizes[k]);
        k := k + 1;
      }
      assert sizes[..k] == sizes;
    }

    /** The layout half of `set_pipeline`: the pipeline's strides and rates in front, cleared slots behind. */
    method SetStrides(strides: seq<DeviceValidation.VertexStride>)
      requires |strides| <= inputs.Length
      modifies inputs
      ensures inputs[..] == WithStrides(old(inputs[..]), strides)
    {
      var i := 0;
      while i < |strides|
        invariant 0 <= i <= |strides|
        invariant forall j :: 0 <= j < i ==> inputs[j] == old(inputs[j]).(stride := strides[j].stride, rate := strides[j].rate)
        invariant forall j :: i <= j < inputs.Length ==> inputs[j] == old(inputs[j])
      {
        inputs[i] := inputs[i].(stride := strides[i].stride, rate := strides[i].rate);
        i := i + 1;
      }
      while i < inputs.Length
        invariant |strides| <= i <= inputs.Length
        invariant forall j :: 0 <= j < |strides| ==> inputs[j] == old(inputs[j]).(stride := strides[j].stride, rate := strides[j].rate)
        invariant forall j :: |strides| <= j < i ==> inputs[j] == old(inputs[j]).(stride := 0, rate := DeviceValidation.Vertex)
        invariant forall j :: i <= j < inputs.Length ==> inputs[j] == old(inputs[j])
      {
        inputs[i] := inputs[i].(stride := 0, rate := DeviceValidation.Vertex);
        i := i + 1;
      }
    }

    /** `update_limits`. */
    method UpdateLimits()
      requires inputs.Length == DeviceValidation.MAX_VERTEX_BUFFERS
      modifies this
      ensures Valid()
      ensures vertexLimit == RateLimit(inputs[..], DeviceValidation.Vertex)
      ensures instanceLimit == RateLimit(inputs[..], DeviceValidation.Instance)
    {
      vertexLimit := U32_MAX;
      instanceLimit := U32_MAX;
      ghost var vs := inputs[..];
      var i := 0;
      while i < inputs.Length
        invariant 0 <= i <= inputs.Length
        invariant vertexLimit == RateLimit(vs[..i], DeviceValidation.Vertex)
        invariant instanceLimit == RateLimit(vs[..i], DeviceValidation.Instance)
      {
        RateLimitStep(vs, i);
        var vbs := inputs[i];
        if vbs.stride != 0 {
          var limit := (vbs.totalSize / vbs.stride) % U32_RANGE;
          match vbs.rate {
            case Vertex => vertexLimit := Bind.Min(vertexLimit, limit);
            case Instance => instanceLimit := Bind.Min(instanceLimit, limit);
          }
        }
        i := i + 1;
      }
      assert vs[..i] == vs;
    }
  }

  /** The slots after `set_vertex_buffers`: from `start` on, each takes its new size; the rest stay. */
  function WithTotalSizes(vs: seq<VertexBufferState>, start: nat, sizes: seq<nat>): (r: seq<VertexBufferState>)
    requires start + |sizes| <= |vs|
    ensures |r| == |vs|
    ensures forall i :: 0 <= i < |vs| && !(start <= i < start + |sizes|) ==> r[i] == vs[i]
    ensures forall k :: 0 <= k < |sizes| ==> r[start + k] == vs[start + k].(totalSize := sizes[k])
  {
    seq(|vs|, i requires 0 <= i < |vs| => if start <= i < start + |sizes| then vs[i].(totalSize := sizes[i - start]) else vs[i])
  }

  /** The slots after `set_pipeline`: the pipeline's layouts in front, cleared slots behind; sizes stay. */
  function WithStrides(vs: seq<VertexBufferState>, strides: seq<DeviceValidation.VertexStride>): (r: seq<VertexBufferState>)
    requires |strides| <= |vs|
    ensures |r| == |vs|
    ensures forall i :: 0 <= i < |vs| ==> r[i].totalSize == vs[i].totalSize
    ensures forall i :: 0 <= i < |strides| ==> r[i].stride == strides[i].stride && r[i].rate == strides[i].rate
    ensures forall i :: |strides| <= i < |vs| ==> r[i].stride == 0 && r[i].rate == DeviceValidation.Vertex
  {
    seq(|vs|, i requires 0 <= i < |vs| =>
      if i < |strides| then vs[i].(stride := strides[i].stride, rate := strides[i].rate)
      else vs[i].(stride := 0, rate := DeviceValidation.Vertex))
  }

  /** Slots a pipeline leaves unused never limit a draw: only its own vertex layouts count. */
  lemma ClearedSlotsDoNotLimit(vs: seq<VertexBufferState>, strides: seq<DeviceValidation.VertexStride>, rate: DeviceValidation.InputStepMode)
    requires |strides| <= |vs|
    ensures forall i :: 0 <= i < |vs| && Limits(WithStrides(vs, strides)[i], rate) ==>
      i < |strides| && strides[i].stride != 0 && strides[i].rate == rate
  {
  }

  /** The bytes each buffer has past its offset. */
  function RemainingSizes(buffers: seq<BufferId>, offsets: seq<nat>, bufferSizes: map<BufferId, nat>): (r: seq<nat>)
    requires |buffers| == |offsets|
    requires forall k :: 0 <= k < |buffers| ==> buffers[k] in bufferSizes && offsets[k] <= bufferSizes[buffers[k]]
    ensures |r| == |buffers|
    ensures forall k :: 0 <= k < |buffers| ==> offsets[k] + r[k] == bufferSizes[buffers[k]]
  {
    seq(|buffers|, k requires 0 <= k < |buffers| => bufferSizes[buffers[k]] - offsets[k])
  }

  /**
   * The binder slots after a pipeline is set: unchanged when the pass already uses its
   * layout, otherwise each slot of the layout expects its group layout and the slots
   * past it expect nothing.
   */
  function StatesAfterLayout(prior: Option<Bind.PipelineLayoutId>, es: seq<Bind.EntryState>, layoutId: Bind.PipelineLayoutId, groupLayouts: seq<Bind.LayoutId>): (r: seq<Bind.EntryState>)
    requires |es| == Bind.MAX_BIND_GROUPS && (prior != Some(layoutId) ==> |groupLayouts| <= Bind.MAX_BIND_GROUPS)
    ensures |r| == Bind.MAX_BIND_GROUPS
    ensures prior == Some(layoutId) ==> r == es
    ensures prior != Some(layoutId) ==>
      && (forall i :: 0 <= i < |groupLayouts| ==> r[i] == es[i].AfterExpect(groupLayouts[i]))
      && (forall i :: |groupLayouts| <= i < Bind.MAX_BIND_GROUPS ==> r[i] == es[i].(expected := None))
  {
    if prior == Some(layoutId) then es else Bind.ExpectedStates(es, groupLayouts, |groupLayouts|)
  }

  /** The descriptor-set bindings a pipeline switch records: none when the layout stays. */
  function LayoutCommands(prior: Option<Bind.PipelineLayoutId>, es: seq<Bind.EntryState>, layoutId: Bind.PipelineLayoutId, groupLayouts: seq<Bind.LayoutId>): (r: seq<Command>)
    requires |es| == Bind.MAX_BIND_GROUPS && (prior != Some(layoutId) ==> |groupLayouts| <= Bind.MAX_BIND_GROUPS)
    ensures prior == Some(layoutId) ==> r == []
    ensures forall k :: 0 <= k < |r| ==>
      r[k].BindDescriptorSets? && r[k].pipelineLayoutId == layoutId && r[k].firstIndex < |groupLayouts|
  {
    if prior == Some(layoutId) then []
    else
      Bind.RebindsMeaning(es, groupLayouts, |groupLayouts|);
      RebindCommands(layoutId, Bind.Rebinds(es, groupLayouts, |groupLayouts|))
  }

  /** The index buffer bound again after a pipeline switch: only when the format changes and a buffer is bound. */
  function IndexRebind(prior: DeviceValidation.IndexFormat, format: DeviceValidation.IndexFormat, view: Option<IndexBufferView>): (r: seq<Command>)
    ensures |r| <= 1
    ensures r != [] <==> prior != format && view.Some?
    ensures r != [] ==> r[0] == BindIndexBuffer(view.value.buffer, view.value.start, format)
  {
    if prior != format && view.Some? then [BindIndexBuffer(view.value.buffer, view.value.start, format)] else []
  }

  /** The pass's tracker after a pipeline switch: the bound index buffer is used as an index buffer again when the format changes. */
  function IndexTracked(t: Track.TrackerSet, prior: DeviceValidation.IndexFormat, format: DeviceValidation.IndexFormat, view: Option<IndexBufferView>): (r: Track.TrackerSet)
    ensures !(prior != format && view.Some?) ==> r == t
    ensures prior != format && view.Some? ==>
      && r.buffers.Keys == t.buffers.Keys + {view.value.buffer} && r.bindGroups == t.bindGroups
      && BufferUsage.Contains(r.buffers[view.value.buffer], BufferUsage.INDEX)
  {
    if prior != format && view.Some? then Track.UseExtend(t, view.value.buffer, BufferUsage.INDEX) else t
  }

  /** A render pass being recorded. */
  class RenderPass {
    const context: DeviceValidation.RenderPassContext
    const sampleCount: nat
    const binder: Bind.Binder
    const indexState: IndexState
    const vertexState: VertexState
    var trackers: Track.TrackerSet
    var blendColorStatus: OptionalState
    var stencilReferenceStatus: OptionalState
    /** The commands recorded into the pass's command buffer so far. */
    var commands: seq<Command>

    predicate Valid()
      reads this, binder, binder.entries, indexState, vertexState, vertexState.inputs
    {
      binder.Valid() && indexState.Valid() && vertexState.Valid()
    }

    /**
     * `RenderPass::new`, over a command buffer that already begins the render pass:
     * nothing bound, nothing required, both vertex limits 0.
     */
    constructor (raw: seq<Command>, context: DeviceValidation.RenderPassContext, sampleCount: nat)
      ensures Valid() && fresh(binder) && fresh(indexState) && fresh(vertexState) && fresh(vertexState.inputs)
      ensures this.context == context && this.sampleCount == sampleCount
      ensures binder.pipelineLayoutId == None
      ensures forall i :: 0 <= i < Bind.MAX_BIND_GROUPS ==> binder.entries[i].State() == Bind.EntryState(None, None, [])
      ensures trackers == Track.EMPTY && commands == raw
      ensures blendColorStatus == Unused && stencilReferenceStatus == Unused
      ensures indexState.boundBufferView == None && indexState.format == DeviceValidation.Uint16 && indexState.limit == 0
      ensures vertexState.inputs[..] == seq(DeviceValidation.MAX_VERTEX_BUFFERS, _ => EMPTY_VERTEX_BUFFER)
      ensures vertexState.vertexLimit == 0 && vertexState.instanceLimit == 0
    {
      this.context := context;
      this.sampleCount := sampleCount;
      binder := new Bind.Binder();
      indexState := new IndexState();
      vertexState := new VertexState();
      trackers := Track.EMPTY;
      blendColorStatus := Unused;
      stencilReferenceStatus := Unused;
      commands := raw;
    }

    /** Whether a draw may be recorded now. */
    function IsReady(): (r: Result<(), DrawError>)
      requires binder.Valid()
      reads this, binder, binder.entries
      ensures r == Readiness(binder.States(), blendColorStatus, stencilReferenceStatus)
    {
      Readiness(binder.States(), blendColorStatus, stencilReferenceStatus)
    }

    /**
     * `render_pass_set_bind_group`: record the group as used, check its dynamic offsets,
     * provide it to the binder and bind it with its follow-ups when the binder says so.
     * A group id always names the same layout.
     */
    method SetBindGroup(index: nat, groupId: Bind.GroupId, group: DeviceValidation.BindGroup, offsets: seq<nat>)
      returns (r: Result<(), PassError>)
      requires Valid()
      requires index < Bind.MAX_BIND_GROUPS && binder.entries[index].State().SameProvision(groupId, offsets) ==>
        binder.entries[index].provided.value.layoutId == group.layoutId
      modifies this, binder.entries
      ensures Valid()
      ensures var check := CheckDynamicOffsets(group.dynamicCount, offsets);
        && (check.Some? ==> r == Failure(check.value))
        && (check.None? && index >= Bind.MAX_BIND_GROUPS ==> r == Failure(BindGroupIndexOutOfRange))
        && (r.Success? <==> check.None? && index < Bind.MAX_BIND_GROUPS)
      ensures r.Failure? ==>
        && trackers == old(trackers) && commands == old(commands)
        && forall i :: 0 <= i < Bind.MAX_BIND_GROUPS ==> binder.entries[i].State() == old(binder.entries[i].State())
      ensures r.Success? ==>
        && trackers == Track.MergeExtend(old(trackers).(bindGroups := old(trackers).bindGroups + {groupId}), group.used)
        && binder.entries[index].State() == old(binder.entries[index].State()).AfterProvide(groupId, group.layoutId, offsets)
        && (forall i :: 0 <= i < Bind.MAX_BIND_GROUPS && i != index ==> binder.entries[i].State() == old(binder.entries[i].State()))
        && var p := old(binder.entries[index].State()).ProvideOutcome(groupId, offsets);
           var f := if p.Unchanged? then None else Bind.FollowUps(binder.States(), binder.pipelineLayoutId, index, p.wasCompatible);
           commands == old(commands) + (if f.Some? then [BindCommand(index, groupId, offsets, f.value)] else [])
      ensures blendColorStatus == old(blendColorStatus) && stencilReferenceStatus == old(stencilReferenceStatus)
    {
      var check := CheckDynamicOffsets(group.dynamicCount, offsets);
      if check.Some? {
        return Failure(check.value);
      }
      if index >= Bind.MAX_BIND_GROUPS {
        return Failure(BindGroupIndexOutOfRange);
      }
      trackers := Track.MergeExtend(trackers.(bindGroups := trackers.bindGroups + {groupId}), group.used);
      ProvideAndBind(index, groupId, group.layoutId, offsets);
      r := Success(());
    }

    /** The binder part of `set_bind_group`: provide the group, then bind what the binder hands back. */
    method ProvideAndBind(index: nat, groupId: Bind.GroupId, layoutId: Bind.LayoutId, offsets: seq<nat>)
      requires binder.Valid() && index < Bind.MAX_BIND_GROUPS
      requires binder.entries[index].State().SameProvision(groupId, offsets) ==> binder.entries[index].provided.value.layoutId == layoutId
      modifies this, binder.entries[index]
      ensures trackers == old(trackers) && blendColorStatus == old(blendColorStatus) && stencilReferenceStatus == old(stencilReferenceStatus)
      ensures binder.entries[index].State() == old(binder.entries[index].State()).AfterProvide(groupId, layoutId, offsets)
      ensures var p := old(binder.entries[index].State()).ProvideOutcome(groupId, offsets);
        var f := if p.Unchanged? then None else Bind.FollowUps(binder.States(), binder.pipelineLayoutId, index, p.wasCompatible);
        commands == old(commands) + (if f.Some? then [BindCommand(index, groupId, offsets, f.value)] else [])
    {
      var followUp := binder.ProvideEntry(index, groupId, layoutId, offsets);
      if followUp.Some? {
        commands := commands + [BindCommand(index, groupId, offsets, followUp.value)];
      }
    }

    /**
     * `render_pass_set_index_buffer`: bind `buffer` from `offset` to its end and derive
     * the index limit. An offset past the end makes the range length underflow, which
     * the source reports as an overflow panic.
     */
    method SetIndexBuffer(buffer: BufferId, offset: nat, bufferSize: nat) returns (r: Result<(), PassError>)
      requires Valid()
      modifies this, indexState
      ensures Valid()
      ensures r.Success? <==> offset <= bufferSize
      ensures r.Failure? ==>
        && r.error == OffsetPastEnd && trackers == old(trackers) && commands == old(commands)
        && indexState.boundBufferView == old(indexState.boundBufferView)
      ensures r.Success? ==>
        && indexState.boundBufferView == Some(IndexBufferView(buffer, offset, bufferSize))
        && trackers == Track.UseExtend(old(trackers), buffer, BufferUsage.INDEX)
        && commands == old(commands) + [BindIndexBuffer(buffer, offset, indexState.format)]
      ensures indexState.format == old(indexState.format)
      ensures blendColorStatus == old(blendColorStatus) && stencilReferenceStatus == old(stencilReferenceStatus)
    {
      if offset > bufferSize {
        return Failure(OffsetPastEnd);
      }
      trackers := Track.UseExtend(trackers, buffer, BufferUsage.INDEX);
      indexState.boundBufferView := Some(IndexBufferView(buffer, offset, bufferSize));
      indexState.UpdateLimit();
      commands := commands + [BindIndexBuffer(buffer, offset, indexState.format)];
      r := Success(());
    }

    /**
     * `render_pass_set_vertex_buffers`: the slots from `startSlot` on take the bytes of
     * each buffer from its offset to its end, as far as there are slots, and the limits
     * are derived again. The counts must agree, the first slot must exist, and no
     * offset may pass its buffer's end (the subtraction would underflow).
     */
    method SetVertexBuffers(startSlot: nat, buffers: seq<BufferId>, offsets: seq<nat>, bufferSizes: map<BufferId, nat>)
      returns (r: Result<(), PassError>)
      requires Valid()
      requires forall i :: 0 <= i < |buffers| ==> buffers[i] in bufferSizes
      modifies this, vertexState, vertexState.inputs
      ensures Valid()
      ensures |buffers| != |offsets| ==> r == Failure(BufferCountMismatch)
      ensures r.Success? <==>
        && |buffers| == |offsets| && startSlot <= DeviceValidation.MAX_VERTEX_BUFFERS
        && forall k :: 0 <= k < Bind.Min(DeviceValidation.MAX_VERTEX_BUFFERS - startSlot, |buffers|) ==>
             offsets[k] <= bufferSizes[buffers[k]]
      ensures r.Failure? ==>
        && trackers == old(trackers) && commands == old(commands) && vertexState.inputs[..] == old(vertexState.inputs[..])
        && vertexState.vertexLimit == old(vertexState.vertexLimit) && vertexState.instanceLimit == old(vertexState.instanceLimit)
      ensures r.Success? ==>
        var n := Bind.Min(DeviceValidation.MAX_VERTEX_BUFFERS - startSlot, |buffers|);
        && vertexState.inputs[..] == WithTotalSizes(old(vertexState.inputs[..]), startSlot, RemainingSizes(buffers[..n], offsets[..n], bufferSizes))
        && vertexState.vertexLimit == RateLimit(vertexState.inputs[..], DeviceValidation.Vertex)
        && vertexState.instanceLimit == RateLimit(vertexState.inputs[..], DeviceValidation.Instance)
        && trackers == Track.UseExtendAll(old(trackers), buffers[..n], BufferUsage.VERTEX)
        && commands == old(commands) + [BindVertexBuffers(startSlot, buffers, offsets)]
      ensures blendColorStatus == old(blendColorStatus) && stencilReferenceStatus == old(stencilReferenceStatus)
    {
      if |buffers| != |offsets| {
        return Failure(BufferCountMismatch);
      }
      if startSlot > DeviceValidation.MAX_VERTEX_BUFFERS {
        return Failure(VertexSlotOutOfRange);
      }
      var n := Bind.Min(DeviceValidation.MAX_VERTEX_BUFFERS - startSlot, |buffers|);
      if exists k :: 0 <= k < n && offsets[k] > bufferSizes[buffers[k]] {
        return Failure(OffsetPastEnd);
      }
      BindVertexSlots(startSlot, n, buffers, offsets, bufferSizes);
      r := Success(());
    }

    /** The success path of `SetVertexBuffers`, once the counts, the slot and the offsets are checked. */
    method BindVertexSlots(startSlot: nat, n: nat, buffers: seq<BufferId>, offsets: seq<nat>, bufferSizes: map<BufferId, nat>)
      requires Valid()
      requires |buffers| == |offsets| && startSlot <= DeviceValidation.MAX_VERTEX_BUFFERS
      requires n == Bind.Min(DeviceValidation.MAX_VERTEX_BUFFERS - startSlot, |buffers|)
      requires forall k :: 0 <= k < n ==> buffers[k] in bufferSizes && offsets[k] <= bufferSizes[buffers[k]]
      modifies this, vertexState, vertexState.inputs
      ensures Valid()
      ensures vertexState.inputs[..] == WithTotalSizes(old(vertexState.inputs[..]), startSlot, RemainingSizes(buffers[..n], offsets[..n], bufferSizes))
      ensures vertexState.vertexLimit == RateLimit(vertexState.inputs[..], DeviceValidation.Vertex)
      ensures vertexState.instanceLimit == RateLimit(vertexState.inputs[..], DeviceValidation.Instance)
      ensures trackers == Track.UseExtendAll(old(trackers), buffers[..n], BufferUsage.VERTEX)
      ensures commands == old(commands) + [BindVertexBuffers(startSlot, buffers, offsets)]
      ensures blendColorStatus == old(blendColorStatus) && stencilReferenceStatus == old(stencilReferenceStatus)
    {
      trackers := Track.UseExtendAll(trackers, buffers[..n], BufferUsage.VERTEX);
      vertexState.SetTotalSizes(startSlot, RemainingSizes(buffers[..n], offsets[..n], bufferSizes));
      vertexState.UpdateLimits();
      commands := commands + [BindVertexBuffers(startSlot, buffers, offsets)];
    }

    /**
     * `render_pass_draw`: the pass must be ready and the vertex and instance ranges must
     * end within their limits; then they end within what the slots allow, so that
     * (RateLimitSoundAll) every slot the draw steps through holds the elements it fetches.
     */
    method Draw(vertexCount: nat, instanceCount: nat, firstVertex: nat, firstInstance: nat) returns (r: Result<(), PassError>)
      requires Valid()
      modifies this
      ensures var ready := Readiness(binder.States(), blendColorStatus, stencilReferenceStatus);
        && (ready.Failure? ==> r == Failure(NotReady(ready.error)))
        && (r.Success? <==>
             ready.Success? && firstVertex + vertexCount <= vertexState.vertexLimit
             && firstInstance + instanceCount <= vertexState.instanceLimit)
      ensures r.Success? ==>
        && firstVertex + vertexCount <= RateLimit(vertexState.inputs[..], DeviceValidation.Vertex)
        && firstInstance + instanceCount <= RateLimit(vertexState.inputs[..], DeviceValidation.Instance)
      ensures commands == old(commands) + (if r.Success? then [Command.Draw(firstVertex, vertexCount, firstInstance, instanceCount)] else [])
      ensures trackers == old(trackers) && blendColorStatus == old(blendColorStatus) && stencilReferenceStatus == old(stencilReferenceStatus)
    {
      var ready := IsReady();
      if ready.Failure? {
        return Failure(NotReady(ready.error));
      }
      if firstVertex + vertexCount > vertexState.vertexLimit {
        return Failure(VertexOutOfRange);
      }
      if firstInstance + instanceCount > vertexState.instanceLimit {
        return Failure(InstanceOutOfRange);
      }
      commands := commands + [Command.Draw(firstVertex, vertexCount, firstInstance, instanceCount)];
      r := Success(());
    }

    /**
     * `render_pass_draw_indexed`: the pass must be ready and the index and instance ranges
     * must end within their limits; then the indices read lie inside the bound index
     * range, and a draw with no index buffer bound draws no index. The base vertex is
     * not checked against the vertex buffers.
     */
    method DrawIndexed(indexCount: nat, instanceCount: nat, firstIndex: nat, baseVertex: int, firstInstance: nat)
      returns (r: Result<(), PassError>)
      requires Valid()
      modifies this
      ensures var ready := Readiness(binder.States(), blendColorStatus, stencilReferenceStatus);
        && (ready.Failure? ==> r == Failure(NotReady(ready.error)))
        && (r.Success? <==>
             ready.Success? && firstIndex + indexCount <= indexState.limit
             && firstInstance + instanceCount <= vertexState.instanceLimit)
      ensures r.Success? ==>
        match indexState.boundBufferView
        case None => firstIndex + indexCount == 0
        case Some(v) => (firstIndex + indexCount) * IndexSize(indexState.format) <= v.end - v.start
      ensures commands == old(commands) +
        (if r.Success? then [Command.DrawIndexed(firstIndex, indexCount, baseVertex, firstInstance, instanceCount)] else [])
      ensures trackers == old(trackers) && blendColorStatus == old(blendColorStatus) && stencilReferenceStatus == old(stencilReferenceStatus)
    {
      var ready := IsReady();
      if ready.Failure? {
        return Failure(NotReady(ready.error));
      }
      if firstIndex + indexCount > indexState.limit {
        return Failure(IndexOutOfRange);
      }
      if firstInstance + instanceCount > vertexState.instanceLimit {
        return Failure(InstanceOutOfRange);
      }
      if indexState.boundBufferView.Some? {
        MulMonotone(firstIndex + indexCount, indexState.limit, IndexSize(indexState.format));
      }
      commands := commands + [Command.DrawIndexed(firstIndex, indexCount, baseVertex, firstInstance, instanceCount)];
      r := Success(());
    }

    /** `render_pass_draw_indirect`: a ready pass uses the buffer for indirect arguments. */
    method DrawIndirect(buffer: BufferId, offset: nat) returns (r: Result<(), PassError>)
      requires Valid()
      modifies this
      ensures var ready := Readiness(binder.States(), blendColorStatus, stencilReferenceStatus);
        r == if ready.Failure? then Failure(NotReady(ready.error)) else Success(())
      ensures r.Success? ==>
        trackers == Track.UseExtend(old(trackers), buffer, BufferUsage.INDIRECT)
        && commands == old(commands) + [Command.DrawIndirect(buffer, offset)]
      ensures r.Failure? ==> trackers == old(trackers) && commands == old(commands)
      ensures blendColorStatus == old(blendColorStatus) && stencilReferenceStatus == old(stencilReferenceStatus)
    {
      var ready := IsReady();
      if ready.Failure? {
        return Failure(NotReady(ready.error));
      }
      trackers := Track.UseExtend(trackers, buffer, BufferUsage.INDIRECT);
      commands := commands + [Command.DrawIndirect(buffer, offset)];
      r := Success(());
    }

    /** `render_pass_draw_indexed_indirect`: as the indirect draw, for indexed arguments. */
    method DrawIndexedIndirect(buffer: BufferId, offset: nat) returns (r: Result<(), PassError>)
      requires Valid()
      modifies this
      ensures var ready := Readiness(binder.States(), blendColorStatus, stencilReferenceStatus);
        r == if ready.Failure? then Failure(NotReady(ready.error)) else Success(())
      ensures r.Success? ==>
        trackers == Track.UseExtend(old(trackers), buffer, BufferUsage.INDIRECT)
        && commands == old(commands) + [Command.DrawIndexedIndirect(buffer, offset)]
      ensures r.Failure? ==> trackers == old(trackers) && commands == old(commands)
      ensures blendColorStatus == old(blendColorStatus) && stencilReferenceStatus == old(stencilReferenceStatus)
    {
      var ready := IsReady();
      if ready.Failure? {
        return Failure(NotReady(ready.error));
      }
      trackers := Track.UseExtend(trackers, buffer, BufferUsage.INDIRECT);
      commands := commands + [Command.DrawIndexedIndirect(buffer, offset)];
      r := Success(());
    }

    /** `render_pass_set_blend_color`: the blend colour is now set. */
    method SetBlendColor()
      modifies this
      ensures blendColorStatus == Set && stencilReferenceStatus == old(stencilReferenceStatus)
      ensures commands == old(commands) + [SetBlendConstants] && trackers == old(trackers)
    {
      blendColorStatus := Set;
      commands := commands + [SetBlendConstants];
    }

    /** `render_pass_set_stencil_reference`: the stencil reference is now set. */
    method SetStencilReference(value: nat)
      modifies this
      ensures stencilReferenceStatus == Set && blendColorStatus == old(blendColorStatus)
      ensures commands == old(commands) + [Command.SetStencilReference(value)] && trackers == old(trackers)
    {
      stencilReferenceStatus := Set;
      commands := commands + [Command.SetStencilReference(value)];
    }

    /**
     * The binder part of `set_pipeline`: switch the binder to the pipeline's layout and
     * record a descriptor-set binding for every slot it rebinds.
     */
    method RebindForLayout(layoutId: Bind.PipelineLayoutId, groupLayouts: seq<Bind.LayoutId>)
      requires binder.Valid() && (binder.pipelineLayoutId != Some(layoutId) ==> |groupLayouts| <= Bind.MAX_BIND_GROUPS)
      modifies this, binder, binder.entries
      ensures binder.Valid() && binder.pipelineLayoutId == Some(layoutId)
      ensures binder.States() == StatesAfterLayout(old(binder.pipelineLayoutId), old(binder.States()), layoutId, groupLayouts)
      ensures commands == old(commands) + LayoutCommands(old(binder.pipelineLayoutId), old(binder.States()), layoutId, groupLayouts)
      ensures trackers == old(trackers) && blendColorStatus == old(blendColorStatus) && stencilReferenceStatus == old(stencilReferenceStatus)
    {
      if binder.pipelineLayoutId != Some(layoutId) {
        var rebinds := binder.ChangePipelineLayout(layoutId, groupLayouts);
        commands := commands + RebindCommands(layoutId, rebinds);
      }
    }

    /**
     * The index part of `set_pipeline`: a pipeline with another index format changes the
     * pass's format, derives the limit again and binds the index buffer again.
     */
    method ChangeIndexFormat(format: DeviceValidation.IndexFormat)
      requires indexState.Valid()
      modifies this, indexState
      ensures indexState.Valid() && indexState.format == format
      ensures indexState.boundBufferView == old(indexState.boundBufferView)
      ensures old(commands) <= commands
      ensures old(indexState.format) == format ==> trackers == old(trackers) && commands == old(commands)
      ensures old(indexState.format) != format ==>
        match indexState.boundBufferView
        case None => trackers == old(trackers) && commands == old(commands)
        case Some(v) =>
          && trackers == Track.UseExtend(old(trackers), v.buffer, BufferUsage.INDEX)
          && commands == old(commands) + [BindIndexBuffer(v.buffer, v.start, format)]
      ensures blendColorStatus == old(blendColorStatus) && stencilReferenceStatus == old(stencilReferenceStatus)
    {
      if indexState.format != format {
        indexState.format := format;
        indexState.UpdateLimit();
        match indexState.boundBufferView {
          case Some(v) =>
            trackers := Track.UseExtend(trackers, v.buffer, BufferUsage.INDEX);
            commands := commands + [BindIndexBuffer(v.buffer, v.start, format)];
          case None =>
        }
      }
    }

    /** The vertex part of `set_pipeline`: take the pipeline's vertex layouts and derive the limits again. */
    method ApplyVertexLayouts(strides: seq<DeviceValidation.VertexStride>)
      requires vertexState.inputs.Length == DeviceValidation.MAX_VERTEX_BUFFERS && |strides| <= DeviceValidation.MAX_VERTEX_BUFFERS
      modifies vertexState, vertexState.inputs
      ensures vertexState.Valid()
      ensures vertexState.inputs[..] == WithStrides(old(vertexState.inputs[..]), strides)
      ensures vertexState.vertexLimit == RateLimit(vertexState.inputs[..], DeviceValidation.Vertex)
      ensures vertexState.instanceLimit == RateLimit(vertexState.inputs[..], DeviceValidation.Instance)
    {
      vertexState.SetStrides(strides);
      vertexState.UpdateLimits();
    }

    /**
     * The binding part of `set_pipeline`: bind the pipeline, switch the binder to its
     * layout and follow its index format.
     */
    method SwitchPipeline(pipelineId: nat, pipeline: DeviceValidation.RenderPipeline)
      requires binder.Valid() && indexState.Valid()
      requires binder.pipelineLayoutId != Some(pipeline.layoutId) ==> |pipeline.groupLayouts| <= Bind.MAX_BIND_GROUPS
      modifies this, binder, binder.entries, indexState
      ensures binder.Valid() && indexState.Valid()
      ensures blendColorStatus == old(blendColorStatus) && stencilReferenceStatus == old(stencilReferenceStatus)
      ensures binder.pipelineLayoutId == Some(pipeline.layoutId)
      ensures indexState.format == pipeline.indexFormat
      ensures indexState.boundBufferView == old(indexState.boundBufferView)
      ensures binder.States() == StatesAfterLayout(old(binder.pipelineLayoutId), old(binder.States()), pipeline.layoutId, pipeline.groupLayouts)
      ensures commands == old(commands) + [BindPipeline(pipelineId)]
                + LayoutCommands(old(binder.pipelineLayoutId), old(binder.States()), pipeline.layoutId, pipeline.groupLayouts)
                + IndexRebind(old(indexState.format), pipeline.indexFormat, old(indexState.boundBufferView))
      ensures trackers == IndexTracked(old(trackers), old(indexState.format), pipeline.indexFormat, old(indexState.boundBufferView))
    {
      commands := commands + [BindPipeline(pipelineId)];
      RebindForLayout(pipeline.layoutId, pipeline.groupLayouts);
      assert indexState.Valid();
      ChangeIndexFormat(pipeline.indexFormat);
      assert binder.Valid();
    }

    /** What `set_pipeline` does once its checks have passed. */
    method ApplyPipeline(pipelineId: nat, pipeline: DeviceValidation.RenderPipeline)
      requires Valid()
      requires binder.pipelineLayoutId != Some(pipeline.layoutId) ==> |pipeline.groupLayouts| <= Bind.MAX_BIND_GROUPS
      requires |pipeline.vertexStrides| <= DeviceValidation.MAX_VERTEX_BUFFERS
      modifies this, binder, binder.entries, indexState, vertexState, vertexState.inputs
      ensures Valid()
      ensures blendColorStatus == Require(old(blendColorStatus), pipeline.flags.blendColor)
      ensures stencilReferenceStatus == Require(old(stencilReferenceStatus), pipeline.flags.stencilReference)
      ensures binder.pipelineLayoutId == Some(pipeline.layoutId)
      ensures indexState.format == pipeline.indexFormat
      ensures indexState.boundBufferView == old(indexState.boundBufferView)
      ensures vertexState.inputs[..] == WithStrides(old(vertexState.inputs[..]), pipeline.vertexStrides)
      ensures vertexState.vertexLimit == RateLimit(vertexState.inputs[..], DeviceValidation.Vertex)
      ensures vertexState.instanceLimit == RateLimit(vertexState.inputs[..], DeviceValidation.Instance)
      ensures binder.States() == StatesAfterLayout(old(binder.pipelineLayoutId), old(binder.States()), pipeline.layoutId, pipeline.groupLayouts)
      ensures commands == old(commands) + [BindPipeline(pipelineId)]
                + LayoutCommands(old(binder.pipelineLayoutId), old(binder.States()), pipeline.layoutId, pipeline.groupLayouts)
                + IndexRebind(old(indexState.format), pipeline.indexFormat, old(indexState.boundBufferView))
      ensures trackers == IndexTracked(old(trackers), old(indexState.format), pipeline.indexFormat, old(indexState.boundBufferView))
    {
      blendColorStatus := Require(blendColorStatus, pipeline.flags.blendColor);
      stencilReferenceStatus := Require(stencilReferenceStatus, pipeline.flags.stencilReference);
      ghost var slots := vertexState.inputs[..];
      SwitchPipeline(pipelineId, pipeline);
      assert binder.Valid() && indexState.Valid() && vertexState.inputs[..] == slots;
      ApplyVertexLayouts(pipeline.vertexStrides);
    }

    /**
     * `render_pass_set_pipeline`. The pipeline must fit the pass's attachments and sample
     * count; it may need a blend colour or a stencil reference; the binder switches to
     * its layout; the index format and the vertex layouts follow the pipeline, and the
     * limits are derived again. A layout with more than four groups, or more than eight
     * vertex layouts, would overrun the slot arrays.
     */
    method SetPipeline(pipelineId: nat, pipeline: DeviceValidation.RenderPipeline) returns (r: Result<(), PassError>)
      requires Valid()
      modifies this, binder, binder.entries, indexState, vertexState, vertexState.inputs
      ensures Valid()
      ensures !DeviceValidation.Compatible(context, pipeline.passContext) ==> r == Failure(IncompatiblePipeline)
      ensures r.Success? <==>
        && DeviceValidation.Compatible(context, pipeline.passContext)
        && pipeline.sampleCount == sampleCount
        && (old(binder.pipelineLayoutId) != Some(pipeline.layoutId) ==> |pipeline.groupLayouts| <= Bind.MAX_BIND_GROUPS)
        && |pipeline.vertexStrides| <= DeviceValidation.MAX_VERTEX_BUFFERS
      ensures r.Failure? ==>
        && trackers == old(trackers) && commands == old(commands)
        && blendColorStatus == old(blendColorStatus) && stencilReferenceStatus == old(stencilReferenceStatus)
        && vertexState.inputs[..] == old(vertexState.inputs[..]) && indexState.format == old(indexState.format)
        && binder.pipelineLayoutId == old(binder.pipelineLayoutId)
        && indexState.boundBufferView == old(indexState.boundBufferView) && indexState.limit == old(indexState.limit)
        && vertexState.vertexLimit == old(vertexState.vertexLimit) && vertexState.instanceLimit == old(vertexState.instanceLimit)
        && forall i :: 0 <= i < Bind.MAX_BIND_GROUPS ==> binder.entries[i].State() == old(binder.entries[i].State())
      ensures r.Success? ==>
        && blendColorStatus == Require(old(blendColorStatus), pipeline.flags.blendColor)
        && stencilReferenceStatus == Require(old(stencilReferenceStatus), pipeline.flags.stencilReference)
        && binder.pipelineLayoutId == Some(pipeline.layoutId)
        && indexState.format == pipeline.indexFormat
        && indexState.boundBufferView == old(indexState.boundBufferView)
        && vertexState.inputs[..] == WithStrides(old(vertexState.inputs[..]), pipeline.vertexStrides)
        && vertexState.vertexLimit == RateLimit(vertexState.inputs[..], DeviceValidation.Vertex)
        && vertexState.instanceLimit == RateLimit(vertexState.inputs[..], DeviceValidation.Instance)
        && binder.States() == StatesAfterLayout(old(binder.pipelineLayoutId), old(binder.States()), pipeline.layoutId, pipeline.groupLayouts)
        && commands == old(commands) + [BindPipeline(pipelineId)]
             + LayoutCommands(old(binder.pipelineLayoutId), old(binder.States()), pipeline.layoutId, pipeline.groupLayouts)
             + IndexRebind(old(indexState.format), pipeline.indexFormat, old(indexState.boundBufferView))
        && trackers == IndexTracked(old(trackers), old(indexState.format), pipeline.indexFormat, old(indexState.boundBufferView))
    {
      if !DeviceValidation.Compatible(context, pipeline.passContext) {
        return Failure(IncompatiblePipeline);
      }
      if pipeline.sampleCount != sampleCount {
        return Failure(SampleCountMismatch);
      }
      if binder.pipelineLayoutId != Some(pipeline.layoutId) && |pipeline.groupLayouts| > Bind.MAX_BIND_GROUPS {
        return Failure(TooManyBindGroups);
      }
      if |pipeline.vertexStrides| > DeviceValidation.MAX_VERTEX_BUFFERS {
        return Failure(TooManyVertexBuffers);
      }
      ApplyPipeline(pipelineId, pipeline);
      r := Success(());
    }
  }
}
