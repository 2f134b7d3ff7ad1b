/**
 * What the render and compute passes share: the commands they record into their
 * backend command buffer, the errors their checks raise, and the checks on the
 * dynamic offsets of a bind group.
 */
module PassCommon {
  import opened Wrappers
  import Track
  import Bind
  import DeviceValidation

  type BufferId = nat
  type GroupId = nat

  const U32_RANGE: nat := 0x1_0000_0000

  /**
   * A backend call recorded by a pass. The calls have no visible semantics; the model
   * keeps which call was made, with which arguments, in which order.
   */
  datatype Command =
    | BindDescriptorSets(pipelineLayoutId: nat, firstIndex: nat, groups: seq<GroupId>, offsets: seq<nat>)
    | BindPipeline(pipelineId: nat)
    | BindIndexBuffer(buffer: BufferId, offset: nat, format: DeviceValidation.IndexFormat)
    | BindVertexBuffers(startSlot: nat, buffers: seq<BufferId>, offsets: seq<nat>)
    | SetBlendConstants
    | SetStencilReference(value: nat)
    | Draw(firstVertex: nat, vertexCount: nat, firstInstance: nat, instanceCount: nat)
    | DrawIndexed(firstIndex: nat, indexCount: nat, baseVertex: int, firstInstance: nat, instanceCount: nat)
    | DrawIndirect(buffer: BufferId, offset: nat)
    | DrawIndexedIndirect(buffer: BufferId, offset: nat)
    | PipelineBarrier(transitions: set<Track.Transition>)
    | Dispatch(x: nat, y: nat, z: nat)
    | DispatchIndirect(buffer: BufferId, offset: nat)
    | BeginRenderPass(attachments: seq<nat>, resolveIds: seq<Option<nat>>, depthIndex: Option<nat>, clearValues: seq<ClearValue>)
    | EndRenderPass

  /** A clear value of a render pass: for the colour attachment at an index, or for the depth-stencil attachment. */
  datatype ClearValue = ColorClear(colorIndex: nat) | DepthStencilClear

  /** The assertions of the pass entry points, each reported instead of a panic. */
  datatype PassError =
    | DynamicOffsetCountMismatch
    | MisalignedDynamicOffset
    | BindGroupIndexOutOfRange
    | TooManyBindGroups
    | IncompatiblePipeline
    | SampleCountMismatch
    | TooManyVertexBuffers
    | BufferCountMismatch
    | VertexSlotOutOfRange
    | OffsetPastEnd
    | NotReady(reason: DrawError)
    | VertexOutOfRange
    | InstanceOutOfRange
    | IndexOutOfRange

  /** Why a render pass cannot draw yet. */
  datatype DrawError = MissingBlendColor | MissingStencilReference | IncompatibleBindGroup(index: nat)

  /**
   * The checks `set_bind_group` makes on the offsets: one per dynamic binding of the
   * group, each a multiple of the buffer alignment (checked with debug assertions on).
   */
  function CheckDynamicOffsets(dynamicCount: nat, offsets: seq<nat>): (r: Option<PassError>)
    ensures r.None? <==>
      |offsets| == dynamicCount && forall i :: 0 <= i < |offsets| ==> offsets[i] % DeviceValidation.BIND_BUFFER_ALIGNMENT == 0
    ensures r.Some? ==> r.value in {DynamicOffsetCountMismatch, MisalignedDynamicOffset}
    ensures r == Some(DynamicOffsetCountMismatch) <==> |offsets| != dynamicCount
  {
    if |offsets| != dynamicCount then Some(DynamicOffsetCountMismatch)
    else if exists i :: 0 <= i < |offsets| && offsets[i] % DeviceValidation.BIND_BUFFER_ALIGNMENT != 0 then
      Some(MisalignedDynamicOffset)
    else None
  }

  /** Offsets as the backend receives them: truncated to `u32`. */
  function U32s(xs: seq<nat>): (r: seq<nat>)
    ensures |r| == |xs|
    ensures forall i :: 0 <= i < |xs| ==> r[i] < U32_RANGE && (xs[i] < U32_RANGE ==> r[i] == xs[i])
  {
    seq(|xs|, i requires 0 <= i < |xs| => xs[i] % U32_RANGE)
  }

  /** The descriptor-set bindings a pipeline change records: one per rebound slot. */
  function RebindCommands(pipelineLayoutId: nat, rebinds: seq<Bind.Rebind>): (r: seq<Command>)
    ensures |r| == |rebinds|
    ensures forall i :: 0 <= i < |rebinds| ==>
      r[i] == BindDescriptorSets(pipelineLayoutId, rebinds[i].index, [rebinds[i].groupId], U32s(rebinds[i].offsets))
  {
    seq(|rebinds|, i requires 0 <= i < |rebinds| =>
      BindDescriptorSets(pipelineLayoutId, rebinds[i].index, [rebinds[i].groupId], U32s(rebinds[i].offsets)))
  }

  /** The descriptor-set binding `set_bind_group` records when the binder hands back follow-ups. */
  function BindCommand(index: nat, groupId: GroupId, offsets: seq<nat>, followUp: Bind.FollowUp): Command {
    BindDescriptorSets(followUp.pipelineLayoutId, index, [groupId] + followUp.groups, U32s(offsets + followUp.offsets))
  }
}
