# wgpu-native core: command recording, validation, resource lifetimes and adapter selection

This project models the core of wgpu-native, the C-facing WebGPU implementation built on
gfx-hal, and proves properties of that model in Dafny. It covers:

- **The bind-group binder** (`command/bind.rs`) shared by compute and render passes.
  - It has four slots. Each slot holds the layout the current pipeline expects there, the
    group the user provided and that group's dynamic offsets.
  - It decides which groups can be bound, which have to be re-bound after a pipeline
    change, and how many leading slots are compatible.
- **Compute and render passes** (`command/compute.rs`, `command/render.rs`).
  - The passes are classes whose fields the operations update: binder, trackers, recorded
    commands, blend-colour and stencil-reference status, and index and vertex state.
  - Vertex state is a fixed-size array of per-slot sizes and strides, from which the
    draw limits are recomputed.
- **The command encoder** (`command/mod.rs`): the checks `begin_render_pass` makes on
  the attachments, and the framebuffer key, pass context and clear values it derives.
  The encoder's list of raw command buffers is a field of type `seq`.
- **Device-side validation** (`device.rs`):
  - the bind-group entries;
  - the render-pipeline sample count and flags;
  - the memory usage of a buffer;
  - the range of a texture view.
- **Deferred destruction and the submission lifecycle** (`device.rs`: `PendingResources`
  and `Device`).
  - Destroyed resources wait until no submission in flight uses them.
  - Map requests are sorted by the submission they wait on.
  - Submissions are retired in order when their fences signal.
  - `queue_submit` stamps each resource with the new submission index and stitches the
    command buffers' trackers into the device's.
- **Adapter selection** (`instance.rs`): the backend bit flags, and the choice of adapter
  by power preference across the Vulkan, Metal, DX12 and DX11 back ends.

Identifiers (buffers, textures, groups, layouts, pipelines) are natural numbers. A buffer
usage and a texture usage are both `bv32` flag sets, matching the source's
bit assignments.

Inputs from the world outside the core become parameters:
- reference counts, the set of swap-chain textures and fence states (`counts`,
  `swapChainTextures`, `signalled`);
- the adapters each back end enumerates;
- buffer and texture-view descriptions.

Where the source panics on an `assert!` or on an `unwrap` of a failed lookup, the model
returns a `Failure` and leaves the state unchanged. The tracker's own `unwrap`s on a usage
conflict are the exception: usage conflicts are not detected (see "## Left out").
Checks the source makes only in debug builds (`cfg!(debug_assertions)`, `debug_assert!`)
are modelled as if always made, and the range sums of draws are unbounded integers.

Where a trace of the source and the natural contract disagreed, the discrepancy is logged
under "## Findings". The model keeps the code as written in a separate member, proves the
discrepancy about it, and builds the rest of the model on the corrected behaviour.

## Model

| member | source | states |
|---|---|---|
| Bind.EntryState.ActualValue | wgpu-native/src/command/bind.rs:115-133 | a slot yields a group exactly when a layout is expected and the provided group has that layout, and then it is the provided group |
| Bind.ProvideIdempotent | wgpu-native/src/command/bind.rs:60-76 | providing the same group with the same offsets again changes nothing and reports `Unchanged` |
| Bind.ProvideChanged | wgpu-native/src/command/bind.rs:60-96 | a changed provision stores the new group and offsets and keeps the expectation; the slot is then valid iff it expected nothing or the new layout; `wasCompatible` holds for an empty slot and otherwise iff the old slot was valid with an expectation |
| Bind.ExpectOutcomeMeaning | wgpu-native/src/command/bind.rs:98-113 | expecting a layout is `Unchanged` iff it was already expected (the slot is then untouched); `Match` leaves the slot valid and carries its group and offsets; `Mismatch` iff the slot ends up invalid |
| Bind.CompatibleCount | wgpu-native/src/command/bind.rs:205-210 | the count is the length of the longest prefix of valid slots: all before it are valid, the one at it is not |
| Bind.InvalidMask | wgpu-native/src/command/bind.rs:195-203 | bit i of the mask is set iff slot i exists and is invalid |
| Bind.TrailingZeros | wgpu-native/src/command/render.rs:160-165 | the result is the index of the lowest set bit, and 8 exactly for the zero mask |
| Bind.MaskAgreesWithCompatibleCount | wgpu-native/src/command/bind.rs:195-210 | the invalid mask is non-zero iff fewer than all slots are compatible, and then its trailing zeros equal the compatible count |
| Bind.TakeSome | wgpu-native/src/command/bind.rs:39-50 | the result is the longest prefix of present values, unwrapped, stopping at the first absent one |
| Bind.FollowUps | wgpu-native/src/command/bind.rs:171-190 | follow-up binding is produced exactly when the changed slot lies inside the compatible prefix and a pipeline layout is set |
| Bind.FollowUpsMeaning | wgpu-native/src/command/bind.rs:171-190 | the follow-ups bind the next slots' actual groups in order, stop at the first unbound one or at the compatible count, and carry exactly those slots' offsets |
| Bind.FollowUpOffsetsOfUnboundSlot | wgpu-native/src/command/bind.rs:171-190 | concrete trace: the code as written passes the offsets of a slot it does not bind; the corrected follow-up passes none |
| Bind.RebindsMeaning | wgpu-native/src/command/bind.rs:143-147 | after a layout change, a slot is re-bound iff its new expectation matches the provided group and no earlier slot mismatched, in increasing slot order |
| Bind.ExpectedStates | wgpu-native/src/command/bind.rs:143-147 | after expecting the first i layouts, those slots hold the new expectation, the rest of the layout's slots are untouched and the slots past the layout expect nothing |
| Bind.BindGroupEntry.constructor | wgpu-native/src/command/bind.rs:52-57 | a new slot expects nothing, holds nothing and has no offsets |
| Bind.BindGroupEntry.Provide | wgpu-native/src/command/bind.rs:60-96 | the answer and the new slot are those of the value-level provision |
| Bind.BindGroupEntry.ExpectLayout | wgpu-native/src/command/bind.rs:98-113 | the answer and the new slot are those of the value-level expectation |
| Bind.Binder.constructor | wgpu-native/src/command/bind.rs:136-140 | a new binder has no pipeline layout and four fresh empty slots |
| Bind.Binder.ResetExpectations | wgpu-native/src/command/bind.rs:143-147 | slots below `length` are untouched; every slot from `length` on loses its expectation |
| Bind.Binder.ProvideEntry | wgpu-native/src/command/bind.rs:154-193 | the slot changes as the provision says; follow-up binding is returned exactly as `FollowUps` computes it from the new slots |
| Bind.Binder.ExpectAt | wgpu-native/src/command/bind.rs:98-113 | one slot takes the new expectation; the other slots are unchanged |
| Bind.Binder.ChangePipelineLayout | wgpu-native/src/command/compute.rs:253-286 | the same layout changes nothing; a new one is recorded, each slot takes its new expectation, the slots past it expect nothing, and the re-binds are exactly `Rebinds` |
| Bind.Binder.ExpectLayouts | wgpu-native/src/command/compute.rs:260-285 | the loop over the group layouts yields exactly the re-binds and slot states the value-level definitions give |
| BufferUsage.ContainsTransitive | wgpu-native/src/resource.rs:23-44 | flag containment is transitive |
| BufferUsage.Union | wgpu-native/src/resource.rs:23-44 | a union of usages contains each operand |
| BufferUsage.ReadWriteDisjoint | wgpu-native/src/resource.rs:23-44 | no buffer usage is both read-only and writing, and the ordered usages are exactly the read-only ones |
| BufferUsage.SinglesArePartitioned | wgpu-native/src/resource.rs:23-44 | each named usage is one bit, no two share a bit, each is in exactly one of read-only and writing, and together they fill the ten low bits |
| TextureUsage.ReadWriteDisjoint | wgpu-native/src/resource.rs:178-193 | no texture usage is both read-only and writing; the output attachment is the only writing usage that is ordered |
| TextureUsage.UninitializedCoversAll | wgpu-native/src/resource.rs:178-193 | the uninitialized state contains every named usage and more |
| Resource.TrivialIffConstant | wgpu-native/src/resource.rs:328-346 | a comparison function is trivial iff its result does not depend on its operands |
| Resource.AsSwapChain | wgpu-native/src/resource.rs:216-223 | yields the swap-chain link exactly for a swap-chain placement |
| Track.UseReplace | wgpu-native/src/command/compute.rs:202-207 | the buffer takes the new usage, nothing else changes, and a transition from its old usage is reported only for a buffer already tracked |
| Track.BarrierOnlyWhenNeeded | wgpu-native/src/command/compute.rs:202-214 | no transition is reported iff the buffer stays in the same usage and that usage is ordered (read-only), so repeating an ordered usage never needs a barrier |
| Track.UseExtend | wgpu-native/src/command/render.rs:318-322 | the buffer is tracked with a usage containing both the new and any old usage; other buffers are untouched |
| Track.UseExtendAll | wgpu-native/src/command/render.rs:361-371 | the tracked buffers are the old ones plus the listed ones |
| Track.UseExtendAllCovers | wgpu-native/src/command/render.rs:361-371 | every listed buffer's usage contains the new usage and every old buffer's usage contains its old usage |
| Track.MergeExtend | wgpu-native/src/command/render.rs:206 | the merged tracker covers both inputs' buffers with usages containing each, and the union of their bind groups |
| Track.MergeReplaceMeaning | wgpu-native/src/command/mod.rs:118-165 | the used tracker's usages win, others are kept, and a transition is reported exactly for a buffer whose usage changes in a way that needs a barrier |
| PassCommon.CheckDynamicOffsets | wgpu-native/src/command/compute.rs:88-100 | no error iff the offset count matches the group's dynamic bindings and each offset is a multiple of the 256-byte alignment; a count mismatch is reported first |
| PassCommon.U32s | wgpu-native/src/command/render.rs:265-268 | each offset is truncated below 2^32 and unchanged when it already fits |
| PassCommon.RebindCommands | wgpu-native/src/command/render.rs:605-616 | one bind command per re-bind, for its slot, group and offsets, under the new layout |
| Compute.ComputePass.constructor | wgpu-native/src/command/compute.rs:34-45 | a new pass starts from the encoder's raw buffer and trackers with an empty binder |
| Compute.ComputePass.SetBindGroup | wgpu-native/src/command/compute.rs:68-139 | a bad offset count or alignment or slot index is an error that changes nothing; otherwise the group's tracker is merged in, no other slot changes, the changed slot takes the provision, and the commands are exactly the usage barrier followed by one bind of that slot with its follow-ups, present iff the binder hands some back |
| Compute.ComputePass.ProvideAndBind | wgpu-native/src/command/compute.rs:121-138 | the slot takes the provision and the commands recorded bind exactly the changed slot and its follow-ups |
| Compute.ComputePass.Dispatch | wgpu-native/src/command/compute.rs:177-184 | records one dispatch and nothing else |
| Compute.ComputePass.DispatchIndirect | wgpu-native/src/command/compute.rs:191-224 | the buffer moves to the indirect usage with any barrier that needs, then one indirect dispatch is recorded |
| Compute.ComputePass.SetPipeline | wgpu-native/src/command/compute.rs:235-287 | the pipeline is bound; a new layout re-expects every slot and re-binds exactly the compatible matches; too many group layouts is an error that changes nothing |
| Render.Require | wgpu-native/src/command/render.rs:35-41 | an unused state becomes required when the pipeline needs it; set or required states never change |
| Render.RequireMonotone | wgpu-native/src/command/render.rs:35-41 | requiring twice is requiring either, and a state ends required iff it was required or unused and now needed |
| Render.Readiness | wgpu-native/src/command/render.rs:158-174 | ready iff every slot is valid and neither the blend colour nor the stencil reference is still required; an incompatible group names the first invalid slot |
| Render.IndexLimit | wgpu-native/src/command/render.rs:62-73 | no bound index buffer gives 0; otherwise the limit fits in 32 bits and that many indices fit in the bound range |
| Render.IndexLimitExact | wgpu-native/src/command/render.rs:62-73 | one index more would not fit: the limit is the largest that does |
| Render.IndexState.constructor | wgpu-native/src/command/render.rs:144-148 | a new index state binds nothing, uses 16-bit indices and limits draws to 0 |
| Render.IndexState.UpdateLimit | wgpu-native/src/command/render.rs:62-73 | the limit becomes `IndexLimit` of the bound view and format, which are unchanged |
| Render.SlotLimit | wgpu-native/src/command/render.rs:99-112 | a slot's limit fits in 32 bits and that many strides fit in its size; when the element count fits in 32 bits one more element would not fit, so the limit is exact |
| Render.RateLimit | wgpu-native/src/command/render.rs:99-112 | the limit is the least slot limit among the slots stepping at this rate, and the 32-bit maximum when none does |
| Render.RateLimitSound | wgpu-native/src/command/render.rs:99-112 | any count within the limit reads within every limiting slot's buffer |
| Render.RateLimitSoundAll | wgpu-native/src/command/render.rs:99-112 | any count within the limit is within all slots at once |
| Render.VertexState.constructor | wgpu-native/src/command/render.rs:149-153 | a new vertex state has every slot empty and both limits 0 |
| Render.VertexState.SetTotalSizes | wgpu-native/src/command/render.rs:361-371 | the given slots take the new sizes; the array is otherwise unchanged |
| Render.VertexState.SetStrides | wgpu-native/src/command/render.rs:650-664 | the pipeline's slots take its strides and rates; the rest are cleared |
| Render.VertexState.UpdateLimits | wgpu-native/src/command/render.rs:99-112 | the loop leaves the vertex and instance limits equal to `RateLimit` of the slots |
| Render.WithTotalSizes | wgpu-native/src/command/render.rs:361-371 | only the given slots change, and only their size |
| Render.WithStrides | wgpu-native/src/command/render.rs:650-664 | sizes are kept, the given strides and rates are installed, the remaining slots stride 0 |
| Render.ClearedSlotsDoNotLimit | wgpu-native/src/command/render.rs:650-664 | a slot the pipeline does not use never limits draws |
| Render.RemainingSizes | wgpu-native/src/command/render.rs:361-371 | each slot's size is what remains of its buffer after the offset |
| Render.StatesAfterLayout | wgpu-native/src/command/render.rs:590-623 | the slots are unchanged for the same layout; otherwise each slot of the layout expects its group layout and the slots past it expect nothing |
| Render.LayoutCommands | wgpu-native/src/command/render.rs:597-623 | no command for the same layout; otherwise only descriptor-set binds in the new layout, each at a slot of that layout |
| Render.IndexRebind | wgpu-native/src/command/render.rs:626-649 | one index-buffer bind, of the bound range's buffer and start in the new format, iff the format changes while a buffer is bound; otherwise none |
| Render.IndexTracked | wgpu-native/src/command/render.rs:631-637 | the bound buffer is tracked with the index usage added iff the format changes while a buffer is bound; otherwise the tracker is unchanged |
| Render.RenderPass.constructor | wgpu-native/src/command/render.rs:130-156 | a new pass has the given context and sample count, empty trackers and binder, unused blend and stencil, and empty index and vertex state |
| Render.RenderPass.IsReady | wgpu-native/src/command/render.rs:158-174 | the pass is ready exactly as `Readiness` of its slots and statuses says |
| Render.RenderPass.SetBindGroup | wgpu-native/src/command/render.rs:218-272 | a bad offset count, alignment or slot index is an error that changes nothing; otherwise the group's tracker is merged in, the slot takes the provision and follow-ups are bound |
| Render.RenderPass.ProvideAndBind | wgpu-native/src/command/render.rs:254-271 | the slot takes the provision and the commands bind exactly the changed slot and its follow-ups |
| Render.RenderPass.SetIndexBuffer | wgpu-native/src/command/render.rs:307-337 | an offset past the end is an error that changes nothing; otherwise the view is bound, the buffer used as index and one bind command recorded |
| Render.RenderPass.SetVertexBuffers | wgpu-native/src/command/render.rs:347-383 | mismatched counts, a start past the slots or an offset past a buffer's end is an error that changes nothing; otherwise each slot from the start takes its buffer's size past its offset, both limits are the rate limits of the new slots, the first buffers that fit gain the VERTEX usage, and one bind command is recorded |
| Render.RenderPass.BindVertexSlots | wgpu-native/src/command/render.rs:360-382 | with the checks passed, the slots from the start take the remaining sizes, both limits are recomputed, the buffers are tracked with VERTEX usage and one bind command is recorded |
| Render.RenderPass.Draw | wgpu-native/src/command/render.rs:398-426 | drawing succeeds iff the pass is ready and the vertex and instance ranges are within their limits, which keeps every read within the vertex buffers |
| Render.RenderPass.DrawIndexed | wgpu-native/src/command/render.rs:476-507 | succeeds iff the pass is ready and the index and instance ranges are within their limits |
| Render.RenderPass.DrawIndirect | wgpu-native/src/command/render.rs:439-465 | succeeds iff the pass is ready; the buffer is then used as indirect and one command recorded |
| Render.RenderPass.DrawIndexedIndirect | wgpu-native/src/command/render.rs:521-548 | succeeds iff the pass is ready; the buffer is then used as indirect and one command recorded |
| Render.RenderPass.SetBlendColor | wgpu-native/src/command/render.rs:675-686 | the blend colour is set and one command recorded |
| Render.RenderPass.SetStencilReference | wgpu-native/src/command/render.rs:693-704 | the stencil reference is set and one command recorded |
| Render.RenderPass.RebindForLayout | wgpu-native/src/command/render.rs:589-624 | the binder takes the layout; its slots become `StatesAfterLayout` and the commands gain `LayoutCommands`: nothing for the same layout, otherwise a bind for exactly the re-binds |
| Render.RenderPass.ChangeIndexFormat | wgpu-native/src/command/render.rs:626-649 | a new format re-binds the bound index buffer in it; the same format changes nothing |
| Render.RenderPass.SwitchPipeline | wgpu-native/src/command/render.rs:586-649 | the pipeline bind, the layout switch and the index-format change together: binder slots, commands and tracker as the three steps imply |
| Render.RenderPass.ApplyVertexLayouts | wgpu-native/src/command/render.rs:650-664 | the slots take the pipeline's strides and the limits are recomputed from them |
| Render.RenderPass.ApplyPipeline | wgpu-native/src/command/render.rs:581-664 | the statuses become required as the pipeline needs; the commands gain one pipeline bind, then the re-binds of a new layout, then an index-buffer bind iff the format changed with a buffer bound; the binder slots, tracker, index format, vertex slots and both limits take the values this implies |
| Render.RenderPass.SetPipeline | wgpu-native/src/command/render.rs:559-665 | an incompatible pass context or sample count, too many group layouts or too many vertex layouts is an error that changes nothing; otherwise the pass ends exactly as `ApplyPipeline` states |
| Command.CheckSamples | wgpu-native/src/command/mod.rs:243-264 | succeeds iff the sample count is supported, every colour attachment has it and every resolve source is multisampled while its target is not, and yields it; each error names the first offending attachment |
| Command.CheckExtents | wgpu-native/src/command/mod.rs:279-395 | succeeds iff there is at least one attachment, at most four colours and all share one extent, and yields that extent |
| Command.Attachments | wgpu-native/src/command/mod.rs:472-477 | the colour ids in order |
| Command.Resolves | wgpu-native/src/command/mod.rs:530-533 | the resolve ids are at most one per colour attachment |
| Command.ResolvesAt | wgpu-native/src/command/mod.rs:479-502 | colour i's resolve target sits at the position counting the earlier resolves |
| Command.NoResolves | wgpu-native/src/command/mod.rs:479-502 | with no resolve targets the resolve list is empty |
| Command.ResolveIds | wgpu-native/src/command/mod.rs:479-502 | fails on the first resolve whose source is single-sampled; otherwise yields each colour's resolve reference and the number of references |
| Command.FramebufferKey | wgpu-native/src/command/mod.rs:528-535 | the key lists the colours, then the resolves, then the optional depth attachment |
| Command.ReferencesMatchFramebuffer | wgpu-native/src/command/mod.rs:479-535 | each resolve reference points at that colour's resolve target within the key, and the depth reference follows colours and resolves |
| Command.PassContext | wgpu-native/src/command/mod.rs:626-637 | the pass context lists the formats of the key's views in the same order |
| Command.ColorClears | wgpu-native/src/command/mod.rs:563-606 | exactly the cleared colour attachments, in increasing order |
| Command.ClearValuesMeaning | wgpu-native/src/command/mod.rs:563-606 | every cleared colour yields a clear value in attachment order, and a depth-stencil clear is present iff depth or stencil is cleared |
| Command.ResolveReferences | wgpu-native/src/command/mod.rs:479-502 | empty when nothing resolves, otherwise one entry per colour attachment |
| Command.CheckAttachments | wgpu-native/src/command/mod.rs:243-502 | succeeds iff the attachments pass every check, and every error is explained by the first check it fails |
| Command.CommandBuffer.constructor | wgpu-native/src/device.rs:1356-1381 | a new encoder holds one empty raw buffer, records and tracks nothing |
| Command.CommandBuffer.BeginComputePass | wgpu-native/src/command/mod.rs:661-682 | the last raw buffer and the trackers move into a fresh pass; with no raw buffer it is an error |
| Command.CommandBuffer.EndComputePass | wgpu-native/src/command/compute.rs:50-61 | the pass's buffer and trackers return to the encoder |
| Command.CommandBuffer.BeginRenderPass | wgpu-native/src/command/mod.rs:203-650 | succeeds iff the attachments pass every check; the new pass then has the derived context and sample count and a begin command with the clear values |
| Command.CommandBuffer.EndRenderPass | wgpu-native/src/command/render.rs:179-211 | the pass's trackers are merged with a barrier recorded on the previous buffer, and the pass's commands close with an end command |
| Command.CommandBuffer.Finish | wgpu-native/src/command/mod.rs:182-192 | the encoder stops recording and nothing else changes |
| DeviceValidation.AttachmentData.All | wgpu-native/src/device.rs:111-118 | colours, then resolves, then the optional depth attachment |
| DeviceValidation.CompatibleIgnoresResolves | wgpu-native/src/device.rs:120-125 | contexts are compatible iff equal apart from resolves, which is an equivalence |
| DeviceValidation.MemoryUsageMeaning | wgpu-native/src/device.rs:594-607 | device memory iff no map flag; upload iff mapped for writing and otherwise at most copied from; download iff mapped for reading, not for writing, and otherwise at most copied into; dynamic when mapped both ways |
| DeviceValidation.ViewRangeExact | wgpu-native/src/device.rs:879-900 | without wrap-around the view's levels and layers start where asked and span the count asked, or to the end for a zero count |
| DeviceValidation.ViewRangeWraps | wgpu-native/src/device.rs:879-900 | the `u8` level end wraps: level 1 with count 255 gives an empty level range |
| DeviceValidation.DynamicCount | wgpu-native/src/device.rs:1081 | counts the dynamic bindings: 0 iff none is dynamic, all iff every one is |
| DeviceValidation.AcceptedBufferBinding | wgpu-native/src/device.rs:1183-1226 | a buffer binding is accepted iff its type is a buffer type, its offset is 256-aligned and its range fits, and then it describes exactly that range |
| DeviceValidation.UsedByCovers | wgpu-native/src/device.rs:1206-1209 | every buffer bound is tracked with a usage containing its binding's usage |
| DeviceValidation.CreateBindGroup | wgpu-native/src/device.rs:1140-1292 | a count mismatch or the first bad binding is an error; otherwise one descriptor per binding and the tracker of all of them |
| DeviceValidation.ValidSampleCountIsPowerOfTwo | wgpu-native/src/device.rs:1568-1573 | a sample count is accepted iff it is 2^k for k up to 5 |
| DeviceValidation.AnyUsesBlendColor | wgpu-native/src/device.rs:1794-1805 | true iff some colour target's blend uses the constant colour |
| DeviceValidation.Strides | wgpu-native/src/device.rs:1592-1598 | one stride and step rate per vertex buffer, in order |
| DeviceValidation.OffsetsFit | wgpu-native/src/device.rs:1599-1613 | true iff every attribute offset of every vertex buffer has its upper 32 bits clear |
| DeviceValidation.CreateRenderPipeline | wgpu-native/src/device.rs:1560-1820 | succeeds iff the sample count is valid, every vertex attribute offset fits in 32 bits and there are at most four colour targets; a bad sample count, then a bad offset, names its error; the strides follow the vertex buffers, the context lists the formats without resolves and the flags say exactly which dynamic states are needed |
| Device.FateMeaning | wgpu-native/src/device.rs:294-340 | a resource is kept iff still referenced elsewhere or a buffer with a pending map, swap-chain textures are forgotten, and the corrected fate differs from the code as written exactly on mapped buffers |
| Device.MappedBufferLeaksAsWritten | wgpu-native/src/device.rs:294-296 | concrete trace: the code as written drops a mapped buffer from the list without releasing it; the corrected fate keeps it |
| Device.Indices | wgpu-native/src/device.rs:148-156 | the submissions' indices in order |
| Device.ActiveWith | wgpu-native/src/device.rs:334-340 | the first submission in flight with the given index, or none iff none has it |
| Device.ActiveWithUnique | wgpu-native/src/device.rs:334-340 | with increasing indices, the submission found is the only one with that index |
| Device.TriageAccountsForAll | wgpu-native/src/device.rs:283-342 | every non-swap-chain resource from position i on is kept, freed at once or placed on exactly the submission holding its last use |
| Device.SwapRemove | wgpu-native/src/device.rs:286 | removing by swap keeps the prefix and the rest as a multiset |
| Device.DoneCount | wgpu-native/src/device.rs:218-227 | the number of leading submissions whose fence signalled, or all when waiting is forced |
| Device.MappedSplit | wgpu-native/src/device.rs:345-369 | every map request is either ready at once or waits on exactly one submission in flight |
| Device.WithMapped | wgpu-native/src/device.rs:360-367 | each submission in flight keeps its index and gains exactly the map requests waiting on it, in request order |
| Device.SettledByTriageAndRetire | wgpu-native/src/device.rs:542-566 | triaging the destroyed resources and then sorting the maps and retiring leave the lists as `SettledFrom` describes |
| Device.LastShort | wgpu-native/src/device.rs:287-291 | the last entry, scanning from the end, whose reference count is below the minimum, or none iff there is none |
| Device.PendingResources.constructor | wgpu-native/src/device.rs:530-538 | everything starts empty |
| Device.PendingResources.Destroy | wgpu-native/src/device.rs:185-188 | destroying an entry already pending is an error; otherwise it joins the referenced list |
| Device.PendingResources.Map | wgpu-native/src/device.rs:190-195 | the buffer joins the map requests and nothing else changes |
| Device.PendingResources.Place | wgpu-native/src/device.rs:334-340 | a released resource goes to the submission of its last use if in flight, else to the free list |
| Device.PendingResources.TriageEntry | wgpu-native/src/device.rs:283-342 | one loop step keeps the triage invariant from position i |
| Device.PendingResources.LeaveEntry | wgpu-native/src/device.rs:294-310 | a kept entry keeps the invariant |
| Device.PendingResources.RemoveEntry | wgpu-native/src/device.rs:286-333 | a released entry leaves the list and the tracker |
| Device.PendingResources.PlaceEntry | wgpu-native/src/device.rs:334-340 | a released entry is placed and the invariant holds |
| Device.PendingResources.TriageReferenced | wgpu-native/src/device.rs:265-343 | an entry short of references is an error that changes nothing; otherwise the kept entries remain, each released one is on its last submission or the free list, and the tracker drops them |
| Device.PendingResources.PlaceMapped | wgpu-native/src/device.rs:360-367 | a map request goes to the submission of the buffer's last use if in flight, else it is ready |
| Device.PendingResources.SortMapped | wgpu-native/src/device.rs:345-369 | one loop step keeps the sorting invariant |
| Device.PendingResources.TriageMapped | wgpu-native/src/device.rs:345-369 | all map requests are drained, each onto its submission or the ready list |
| Device.PendingResources.Cleanup | wgpu-native/src/device.rs:198-263 | the signalled leading submissions retire; their resources plus the free list are destroyed, their maps become ready, and the last retired index precedes all remaining |
| Device.PendingResources.Retire | wgpu-native/src/device.rs:229-236 | the first n submissions leave, their resources join the free list and their maps the ready list |
| Device.PendingResources.TakeReadyToMap | wgpu-native/src/device.rs:409-434 | the ready map requests are handed out and the list emptied |
| Device.PendingResources.PushActive | wgpu-native/src/device.rs:1530-1535 | a new empty submission with a later index joins the end |
| Device.UsedBy | wgpu-native/src/device.rs:1446-1471 | the resources a command buffer's tracker uses |
| Device.UsedByAllMeaning | wgpu-native/src/device.rs:1446-1471 | a resource is used by the submission iff some command buffer uses it |
| Device.Stamped | wgpu-native/src/device.rs:1446-1471 | used resources record the new index, others keep theirs |
| Device.StampedTwice | wgpu-native/src/device.rs:1446-1471 | stamping in two steps with one index equals stamping the union |
| Device.StampedWithin | wgpu-native/src/device.rs:1446-1471 | stamping keeps every recorded index within the bound |
| Device.StitchAll | wgpu-native/src/device.rs:1446-1489 | the loop yields exactly the stitched tracker and barriers and the stamped indices |
| Device.Device.constructor | wgpu-native/src/device.rs:489-540 | the submission counter starts at 1 and nothing is tracked or pending |
| Device.Device.Maintain | wgpu-native/src/device.rs:542-566 | fails iff a destroyed entry is short of references, naming the last such, and then changes nothing; otherwise the tracker drops exactly the released resources and the lists end as `SettledFrom` states: kept entries stay, released ones wait on their last submission or are freed, map requests wait on their submission, the signalled leading submissions retire, and the maps handed out are the earlier ready ones, those no submission uses, then the retired submissions', none still pending |
| Device.Device.Settle | wgpu-native/src/device.rs:545-563 | once nothing is short of references, triage then retirement leave the tracker and lists exactly as `Maintain` states for success |
| Device.Device.Retire | wgpu-native/src/device.rs:546-566 | every map request joins its submission or the ready list; the first n submissions whose fences signalled leave the FIFO and the rest remain in order; the free list is destroyed iff any retired; the maps handed out are the earlier ready ones, those no submission uses, then the retired submissions' in FIFO order, and none stays pending |
| Device.Device.QueueSubmit | wgpu-native/src/device.rs:1398-1547 | submitting a buffer with a pending map, or maintaining while a destroyed entry is short of references, is an error that changes nothing; otherwise the index is one past the counter, the barriers are the stitched ones, every used resource records the index, the tracker is the stitched one less the released resources, the lists are settled as by `Maintain` without a forced wait, and the new empty submission joins the end |
| Device.Device.Submit | wgpu-native/src/device.rs:1409-1535 | the success path of `QueueSubmit`: the same index, barriers, stamps, tracker, settled lists and new submission |
| Device.Device.Stitch | wgpu-native/src/device.rs:1446-1489 | the device tracker and last-use indices become the stitched and stamped ones |
| Device.Device.BufferMapAsync | wgpu-native/src/device.rs:2120-2151 | mapping an already pending buffer is an error that changes nothing; otherwise it is pending, tracked in the map usage and queued for triage |
| Instance.Discriminant | wgpu-native/src/instance.rs:89-101 | each backend's bit position is below 6 and 0 only for the empty backend |
| Instance.FromBackend | wgpu-native/src/instance.rs:103-108 | every real backend has a non-zero bit within the full set; the empty backend has none |
| Instance.BackendBits | wgpu-native/src/instance.rs:89-101 | the flag values, and that primary and secondary are disjoint and together make up every backend |
| Instance.FromBackendDistinct | wgpu-native/src/instance.rs:89-108 | distinct backends have distinct bits |
| Instance.DefaultOptions | wgpu-native/src/instance.rs:118-127 | default power preference and exactly the primary backends |
| Instance.FirstOfMeaning | wgpu-native/src/instance.rs:336-350 | the first adapter of a device-type bucket, or none iff the bucket is empty |
| Instance.Buckets | wgpu-native/src/instance.rs:336-350 | the loop finds the first integrated, discrete and other adapter |
| Instance.Order | wgpu-native/src/instance.rs:352-356 | the preference order visits all three buckets once |
| Instance.Chosen | wgpu-native/src/instance.rs:352-359 | the chosen adapter is within the list |
| Instance.ChoiceMeaning | wgpu-native/src/instance.rs:336-359 | none iff no adapter; otherwise the first adapter of the most preferred bucket that has one |
| Instance.Position | wgpu-native/src/instance.rs:360-420 | the backend's position in the search order |
| Instance.Enumerate | wgpu-native/src/instance.rs:285-330 | a backend yields adapters only when its instance exists and the options enable it |
| Instance.Lists | wgpu-native/src/instance.rs:298-330 | one adapter list per backend, in the order Vulkan, Metal, DX12, DX11 |
| Instance.LocateMeaning | wgpu-native/src/instance.rs:360-420 | an overall index maps to the backend whose list holds it and the index within that list |
| Instance.Select | wgpu-native/src/instance.rs:332-421 | no adapter is an error; otherwise the located adapter is the chosen one |
| Instance.RequestAdapter | wgpu-native/src/instance.rs:274-421 | fails iff no backend yields an adapter; otherwise the selected backend and index name the adapter the preference chooses |
| Instance.WgpuRequestAdapter | wgpu-native/src/instance.rs:423-427 | as `RequestAdapter`, with the default options when none are given |

## Left out

- Texture and texture-view trackers and the texture barriers in `begin_render_pass` and `insert_barriers`. Only buffer and bind-group trackers are modelled.
- The first/last state distinction of the tracker's stitching: a stitch uses the state a resource is left in.
- The tracker module itself: its `use_replace`, `use_extend`, `merge_extend` and `merge_replace` are modelled at their call sites from their documented behaviour, except for usage conflicts (below).
- Track.UseExtend: a buffer whose tracked usage conflicts with the extension is not detected; the source `unwrap`s the tracker's result at every call site (for example `device.rs` 1206-1209, `command/render.rs` 318-322 and 634-637, `command/compute.rs` 85-86) and so panics, while the model merges the usages. The tracker's conflict rule is not part of this model.
- Track.MergeExtend: merging never fails here; where the tracker module's merge can fail on a conflicting usage (the source `unwrap`s it at `command/mod.rs` 154-155), that failure is not modelled, for the same reason.
- Swap-chain links and frame acquisition: the swap-chain textures are an input set.
- The render-pass and framebuffer caches, and `triage_framebuffers`: the model computes the framebuffer key but creates no gfx-hal object.
- Floating-point clear colours, viewports and scissors, with their `i16` casts.
- gfx-hal calls, fence creation and waits, and memory allocation: fence signals are a parameter, and destroying is returned as a list rather than performed.
- The panic when the GPU is stuck after a forced wait.
- `handle_mapping`'s actual mapping, `map_buffer` and `fire_map_callbacks`: the model hands out the buffers whose map can go ahead.
- Reference counts and the pending-map state of individual buffers are inputs, not maintained by the model.
- Panics on an `assert!` or on an `unwrap` of a failed lookup are modelled as `Failure` results with the state unchanged; the tracker's conflict panics are not modelled (above).
- PassCommon.CheckDynamicOffsets: the alignment of each dynamic offset is always checked; the source checks it only in debug builds (`cfg!(debug_assertions)`, `command/compute.rs` 90 and `command/render.rs` 240), so a release build accepts a misaligned offset.
- Render.RenderPass.Draw: `first_vertex + vertex_count` and `first_instance + instance_count` are unbounded sums; the source adds `u32`s, which wrap in release builds and could pass the limit check after wrapping.
- Render.RenderPass.DrawIndexed: likewise for `first_index + index_count` and `first_instance + instance_count`.
- Device.PendingResources.Destroy: a resource destroyed twice is always an error; the source's check is a `debug_assert!`, so a release build lists it twice.
- Instance.Discriminant: the discriminants of `Backend` (Empty 0, Vulkan 1, Metal 2, Dx12 3, Dx11 4, Gl 5) are assumed, because the file declaring `Backend` is not part of this model; `BackendBits` follows from them.
- The early return of `triage_referenced` when nothing is short of references is not modelled separately, because its outcome equals the general path.
- The alignment asserts of `adapter_request_device`.
- The descriptor and command allocators' maintenance in `maintain` and `queue_submit`.
- `queue_submit`'s stamping of textures and views: only buffers and bind groups are tracked.
- The gfx-hal release of destroyed resources.
- `execute_bundles`, which the source leaves unimplemented.
- The platform `cfg` gates on Metal and DX11: each backend's instance is an `Option` in the platform value.
- Bind.Binder.ChangePipelineLayout: requires at most four group layouts; the passes check this and report an error first.
- Instance.Enumerate: the adapters a backend enumerates are an input, given by device type.

## Findings

| source | as written | input that shows it | evidently intended | confidence | as-written member | corrected member |
|---|---|---|---|---|---|---|
| wgpu-native/src/command/bind.rs:171-190 | the follow-up groups stop at the first slot without an expectation, but the offsets are taken from every slot up to the end of the range, including slots whose group is not bound | pipeline layout 7; slot 0 expects layout 0 and holds group 11 of layout 1, and group 10 of layout 0 is provided there; slots 1 and 3 are empty; slot 2 expects nothing and still holds group 12 with dynamic offset 256 | only the offsets of the groups actually bound follow | not executed | Bind.FollowUpOffsetsOfUnboundSlot | Bind.FollowUpsMeaning |
| wgpu-native/src/device.rs:294-296 | a buffer whose map operation is pending is removed from the referenced list by `swap_remove` before the `continue` that skips it, so it is never released | destroyed buffer 7 with 3 strong references (below the minimum of 4) whose map operation is pending | the buffer stays in the list until its map completes | not executed | Device.MappedBufferLeaksAsWritten | Device.FateMeaning |
