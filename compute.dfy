/**
 * The compute pass: a binder, the pass's usage tracker and its command buffer. Unlike
 * the render pass it inserts barriers while it records, every time a bind group or an
 * indirect buffer is used.
 */
module Compute {
  import opened Wrappers
  import BufferUsage
  import Track
  import Bind
  import DeviceValidation
  import opened PassCommon

  /** A compute pass being recorded. */
  class ComputePass {
    const binder: Bind.Binder
    var trackers: Track.TrackerSet
    /** The commands recorded into the pass's command buffer so far. */
    var commands: seq<Command>

    predicate Valid() {
      binder.Valid()
    }

    /** `ComputePass::new`: the pass records on into `raw` and takes over the trackers it is given, with an empty binder. */
    constructor (raw: seq<Command>, trackers: Track.TrackerSet)
      ensures Valid() && fresh(binder) && this.trackers == trackers && commands == raw
      ensures binder.pipelineLayoutId == None
      ensures forall i :: 0 <= i < Bind.MAX_BIND_GROUPS ==> binder.entries[i].State() == Bind.EntryState(None, None, [])
    {
      binder := new Bind.Binder();
      this.trackers := trackers;
      commands := raw;
    }

    /**
     * `compute_pass_set_bind_group`: record the group as used, check its dynamic offsets,
     * insert the barriers its buffers need now, provide it to the binder and bind it
     * with its follow-ups when the binder says so. A group id always names the same layout.
     */
    method SetBindGroup(index: nat, groupId: Bind.GroupId, group: DeviceValidation.BindGroup, offsets: seq<nat>)
      returns (r: Result<(), PassError>)
      requires Valid()
      requires index < Bind.MAX_BIND_GROUPS && binder.entries[index].State().SameProvision(groupId, offsets) ==>
        binder.entries[index].provided.value.layoutId == group.layoutId
      modifies this, binder.entries
      ensures var check := CheckDynamicOffsets(group.dynamicCount, offsets);
        && (check.Some? ==> r == Failure(check.value))
        && (check.None? && index >= Bind.MAX_BIND_GROUPS ==> r == Failure(BindGroupIndexOutOfRange))
        && (r.Success? <==> check.None? && index < Bind.MAX_BIND_GROUPS)
      ensures r.Failure? ==>
        && trackers == old(trackers) && commands == old(commands)
        && forall i :: 0 <= i < Bind.MAX_BIND_GROUPS ==> binder.entries[i].State() == old(binder.entries[i].State())
      ensures r.Success? ==>
        var merged := Track.MergeReplace(old(trackers).(bindGroups := old(trackers).bindGroups + {groupId}), group.used);
        && trackers == merged.0
        && binder.entries[index].State() == old(binder.entries[index].State()).AfterProvide(groupId, group.layoutId, offsets)
        && (forall i :: 0 <= i < Bind.MAX_BIND_GROUPS && i != index ==> binder.entries[i].State() == old(binder.entries[i].State()))
        && var p := old(binder.entries[index].State()).ProvideOutcome(groupId, offsets);
           var f := if p.Unchanged? then None else Bind.FollowUps(binder.States(), binder.pipelineLayoutId, index, p.wasCompatible);
           commands == old(commands) + [PipelineBarrier(merged.1)]
                       + (if f.Some? then [BindCommand(index, groupId, offsets, f.value)] else [])
    {
      var check := CheckDynamicOffsets(group.dynamicCount, offsets);
      if check.Some? {
        return Failure(check.value);
      }
      if index >= Bind.MAX_BIND_GROUPS {
        return Failure(BindGroupIndexOutOfRange);
      }
      var merged := Track.MergeReplace(trackers.(bindGroups := trackers.bindGroups + {groupId}), group.used);
      trackers := merged.0;
      commands := commands + [PipelineBarrier(merged.1)];
      ProvideAndBind(index, groupId, group.layoutId, offsets);
      r := Success(());
    }

    /** The binder part of `set_bind_group`: provide the group, then bind what the binder hands back. */
    method ProvideAndBind(index: nat, groupId: Bind.GroupId, layoutId: Bind.LayoutId, offsets: seq<nat>)
      requires binder.Valid() && index < Bind.MAX_BIND_GROUPS
      requires binder.entries[index].State().SameProvision(groupId, offsets) ==> binder.entries[index].provided.value.layoutId == layoutId
      modifies this, binder.entries[index]
      ensures trackers == old(trackers)
      ensures binder.entries[index].State() == old(binder.entries[index].State()).AfterProvide(groupId, layoutId, offsets)
      ensures var p := old(binder.entries[index].State()).ProvideOutcome(groupId, offsets);
        var f := if p.Unchanged? then None else Bind.FollowUps(binder.States(), binder.pipelineLayoutId, index, p.wasCompatible);
        commands == old(commands) + (if f.Some? then [BindCommand(index, groupId, offsets, f.value)] else [])
    {
      var followUp := binder.ProvideEntry(index, groupId, layoutId, offsets);
      if followUp.Some? {
        commands := commands + [BindCommand(index, groupId, offsets, followUp.value)];
      }
    }

    /** `compute_pass_dispatch`. */
    method Dispatch(x: nat, y: nat, z: nat)
      modifies this
      ensures commands == old(commands) + [Command.Dispatch(x, y, z)] && trackers == old(trackers)
    {
      commands := commands + [Command.Dispatch(x, y, z)];
    }

    /**
     * `compute_pass_dispatch_indirect`: the buffer moves to indirect usage, and the
     * barrier that move needs, if any, is recorded before the dispatch.
     */
    method DispatchIndirect(buffer: PassCommon.BufferId, offset: nat)
      modifies this
      ensures var used := Track.UseReplace(old(trackers), buffer, BufferUsage.INDIRECT);
        && trackers == used.0
        && commands == old(commands) + [
             PipelineBarrier(if used.1.Some? then {used.1.value} else {}),
             Command.DispatchIndirect(buffer, offset)]
      ensures trackers.buffers[buffer] == BufferUsage.INDIRECT
    {
      var used := Track.UseReplace(trackers, buffer, BufferUsage.INDIRECT);
      trackers := used.0;
      var barriers := if used.1.Some? then {used.1.value} else {};
      commands := commands + [PipelineBarrier(barriers), Command.DispatchIndirect(buffer, offset)];
    }

    /**
     * `compute_pass_set_pipeline`: bind the pipeline, then switch the binder to its
     * layout and rebind every slot that matches before the first mismatch. A layout
     * with more than four groups would overrun the slots.
     */
    method SetPipeline(pipelineId: nat, layoutId: Bind.PipelineLayoutId, groupLayouts: seq<Bind.LayoutId>)
      returns (r: Result<(), PassError>)
      requires Valid()
      modifies this, binder, binder.entries
      ensures r.Success? <==> old(binder.pipelineLayoutId) == Some(layoutId) || |groupLayouts| <= Bind.MAX_BIND_GROUPS
      ensures r.Failure? ==>
        && r.error == TooManyBindGroups && commands == old(commands) && binder.pipelineLayoutId == old(binder.pipelineLayoutId)
        && forall i :: 0 <= i < Bind.MAX_BIND_GROUPS ==> binder.entries[i].State() == old(binder.entries[i].State())
      ensures r.Success? && old(binder.pipelineLayoutId) == Some(layoutId) ==>
        && commands == old(commands) + [BindPipeline(pipelineId)]
        && forall i :: 0 <= i < Bind.MAX_BIND_GROUPS ==> binder.entries[i].State() == old(binder.entries[i].State())
      ensures r.Success? && old(binder.pipelineLayoutId) != Some(layoutId) ==>
        && binder.pipelineLayoutId == Some(layoutId)
        && commands == old(commands) + [BindPipeline(pipelineId)] + RebindCommands(layoutId, Bind.Rebinds(old(binder.States()), groupLayouts, |groupLayouts|))
        && (forall i :: 0 <= i < |groupLayouts| ==> binder.entries[i].State() == old(binder.entries[i].State()).AfterExpect(groupLayouts[i]))
        && (forall i :: |groupLayouts| <= i < Bind.MAX_BIND_GROUPS ==> binder.entries[i].State() == old(binder.entries[i].State()).(expected := None))
      ensures trackers == old(trackers)
    {
      if binder.pipelineLayoutId != Some(layoutId) && |groupLayouts| > Bind.MAX_BIND_GROUPS {
        return Failure(TooManyBindGroups);
      }
      commands := commands + [BindPipeline(pipelineId)];
      if binder.pipelineLayoutId != Some(layoutId) {
        var rebinds := binder.ChangePipelineLayout(layoutId, groupLayouts);
        commands := commands + RebindCommands(layoutId, rebinds);
      }
      r := Success(());
    }
  }
}
