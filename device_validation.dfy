/**
 * The pure decisions the device makes when resources and pipelines are created:
 * memory class of a buffer, the subresource range of a texture view, the checks on
 * bind-group bindings, the sample count of a render pipeline and the render-pass
 * context a pipeline is compatible with.
 */
module DeviceValidation {
  import opened Wrappers
  import BufferUsage
  import TextureUsage
  import Resource
  import Track

  const MAX_COLOR_TARGETS: nat := 4
  const MAX_MIP_LEVELS: nat := 16
  const MAX_VERTEX_BUFFERS: nat := 8
  /** Bound uniform and storage buffer offsets are multiples of this. */
  const BIND_BUFFER_ALIGNMENT: nat := 256

  const U8_RANGE: nat := 0x100
  const U16_RANGE: nat := 0x1_0000
  const U32_RANGE: nat := 0x1_0000_0000

  type TextureFormat = nat
  type BufferId = nat
  type TextureViewId = nat
  type SamplerId = nat

  /** Attachments of a render pass: colours, their resolve targets, and an optional depth-stencil. */
  datatype AttachmentData<T> = AttachmentData(colors: seq<T>, resolves: seq<T>, depthStencil: Option<T>)
  {
    /** Every attachment: colours, then resolves, then depth-stencil. */
    function All(): (r: seq<T>)
      ensures |r| == |colors| + |resolves| + (if depthStencil.Some? then 1 else 0)
      ensures forall i :: 0 <= i < |colors| ==> r[i] == colors[i]
      ensures forall i :: 0 <= i < |resolves| ==> r[|colors| + i] == resolves[i]
      ensures depthStencil.Some? ==> r[|colors| + |resolves|] == depthStencil.value
    {
      colors + resolves + (if depthStencil.Some? then [depthStencil.value] else [])
    }
  }

  /** The formats of a render pass's attachments. */
  type RenderPassContext = AttachmentData<TextureFormat>

  /** A pipeline fits a pass with the same colour and depth-stencil formats; resolves do not matter. */
  predicate Compatible(a: RenderPassContext, b: RenderPassContext) {
    a.colors == b.colors && a.depthStencil == b.depthStencil
  }

  /** Compatibility is equality once the resolve targets are forgotten, so it is an equivalence. */
  lemma CompatibleIgnoresResolves(a: RenderPassContext, b: RenderPassContext, c: RenderPassContext)
    ensures Compatible(a, b) <==> a.(resolves := []) == b.(resolves := [])
    ensures Compatible(a, a)
    ensures Compatible(a, b) ==> Compatible(b, a)
    ensures Compatible(a, b) && Compatible(b, c) ==> Compatible(a, c)
  {
    if a.(resolves := []) == b.(resolves := []) {
      assert a.(resolves := []).colors == b.(resolves := []).colors;
    }
  }

  /** Where the memory allocator puts a buffer. */
  datatype MemoryUsage = Data | Upload | Download | Dynamic

  /** The memory class `create_buffer` chooses from the buffer's usage. */
  function BufferMemoryUsage(usage: BufferUsage.Flags): MemoryUsage {
    if !BufferUsage.Intersects(usage, BufferUsage.MAP_READ | BufferUsage.MAP_WRITE) then Data
    else if BufferUsage.Contains(BufferUsage.MAP_WRITE | BufferUsage.COPY_SRC, usage) then Upload
    else if BufferUsage.Contains(BufferUsage.MAP_READ | BufferUsage.COPY_DST, usage) then Download
    else Dynamic
  }

  /**
   * Device-local memory exactly for buffers the host never maps; upload memory exactly for
   * buffers mapped for writing and otherwise at most copied from; download memory exactly
   * for buffers mapped for reading and otherwise at most copied into; a buffer mapped
   * both ways is dynamic. A buffer created mapped is never device-local nor download.
   */
  lemma MemoryUsageMeaning(usage: BufferUsage.Flags)
    ensures BufferMemoryUsage(usage) == Data <==> usage & BufferUsage.MAP_READ == 0 && usage & BufferUsage.MAP_WRITE == 0
    ensures BufferMemoryUsage(usage) == Upload <==>
      usage & BufferUsage.MAP_WRITE != 0 && usage & !(BufferUsage.MAP_WRITE | BufferUsage.COPY_SRC) == 0
    ensures BufferMemoryUsage(usage) == Download <==>
      usage & BufferUsage.MAP_READ != 0 && usage & BufferUsage.MAP_WRITE == 0 && usage & !(BufferUsage.MAP_READ | BufferUsage.COPY_DST) == 0
    ensures usage & BufferUsage.MAP_READ != 0 && usage & BufferUsage.MAP_WRITE != 0 ==> BufferMemoryUsage(usage) == Dynamic
    ensures BufferMemoryUsage(usage | BufferUsage.MAP_WRITE) in {Upload, Dynamic}
  {
  }

  /** A subresource aspect of an image. */
  datatype Aspect = Color | Depth | Stencil

  /** A subresource range: aspects, mip levels `start..end` (as `u8`) and array layers (as `u16`). */
  datatype SubresourceRange = SubresourceRange(aspects: set<Aspect>, levelStart: nat, levelEnd: nat, layerStart: nat, layerEnd: nat)

  datatype TextureViewDescriptor = TextureViewDescriptor(
    format: TextureFormat, aspect: Resource.TextureAspect,
    baseMipLevel: nat, levelCount: nat, baseArrayLayer: nat, arrayLayerCount: nat)

  /**
   * The range `texture_create_view` gives the view: the texture's full range without a
   * descriptor; otherwise a count of 0 means "to the texture's end", and the ends and
   * starts are truncated to `u8` levels and `u16` layers.
   */
  function ViewRange(full: SubresourceRange, desc: Option<TextureViewDescriptor>): SubresourceRange {
    match desc
    case None => full
    case Some(d) =>
      SubresourceRange(
        match d.aspect
        case All => full.aspects
        case DepthOnly => {Depth}
        case StencilOnly => {Stencil},
        d.baseMipLevel % U8_RANGE,
        if d.levelCount == 0 then full.levelEnd else (d.baseMipLevel + d.levelCount) % U8_RANGE,
        d.baseArrayLayer % U16_RANGE,
        if d.arrayLayerCount == 0 then full.layerEnd else (d.baseArrayLayer + d.arrayLayerCount) % U16_RANGE)
  }

  /**
   * A descriptor whose ranges fit the `u8`/`u16` fields gets exactly `levelCount`
   * levels from its base (the rest of the texture when 0), and likewise for layers.
   */
  lemma ViewRangeExact(full: SubresourceRange, d: TextureViewDescriptor)
    requires d.baseMipLevel + d.levelCount < U8_RANGE && d.baseArrayLayer + d.arrayLayerCount < U16_RANGE
    ensures var r := ViewRange(full, Some(d));
            && r.levelStart == d.baseMipLevel
            && (d.levelCount != 0 ==> r.levelEnd - r.levelStart == d.levelCount)
            && (d.levelCount == 0 ==> r.levelEnd == full.levelEnd)
            && r.layerStart == d.baseArrayLayer
            && (d.arrayLayerCount != 0 ==> r.layerEnd - r.layerStart == d.arrayLayerCount)
            && (d.arrayLayerCount == 0 ==> r.layerEnd == full.layerEnd)
            && (d.aspect == Resource.All ==> r.aspects == full.aspects)
  {
  }

  /**
   * The truncation can wrap: 255 levels from level 1 end at level 0, an empty range.
   * The `u32` sum itself wraps at a multiple of 256, so only the truncation shows.
   */
  lemma ViewRangeWraps(full: SubresourceRange)
    ensures var r := ViewRange(full, Some(TextureViewDescriptor(0, Resource.All, 1, 255, 0, 0)));
            r.levelStart == 1 && r.levelEnd == 0
  {
  }

  /** The kinds of binding a bind-group layout declares. */
  datatype BindingType = UniformBuffer | StorageBuffer | ReadonlyStorageBuffer | Sampler | SampledTexture | StorageTexture

  datatype BindGroupLayoutBinding = BindGroupLayoutBinding(binding: nat, ty: BindingType, dynamic: bool)

  /** `dynamic_count` of a bind-group layout: how many bindings take a dynamic offset. */
  function DynamicCount(bindings: seq<BindGroupLayoutBinding>): (n: nat)
    ensures n <= |bindings|
    ensures n == 0 <==> forall i :: 0 <= i < |bindings| ==> !bindings[i].dynamic
    ensures n == |bindings| <==> forall i :: 0 <= i < |bindings| ==> bindings[i].dynamic
  {
    if |bindings| == 0 then 0
    else DynamicCount(bindings[..|bindings| - 1]) + (if bindings[|bindings| - 1].dynamic then 1 else 0)
  }

  /** What a binding of a bind group points at. */
  datatype BindingResource =
    | BufferBinding(buffer: BufferId, offset: nat, size: nat)
    | SamplerBinding(sampler: SamplerId)
    | TextureViewBinding(view: TextureViewId)

  /** What is written into the descriptor set; a buffer range without an end runs to the buffer's end. */
  datatype Descriptor =
    | BufferDescriptor(buffer: BufferId, start: nat, end: Option<nat>, usage: BufferUsage.Flags)
    | SamplerDescriptor(sampler: SamplerId)
    | ImageDescriptor(view: TextureViewId, usage: TextureUsage.Flags)

  datatype BindError =
    | BindingCountMismatch
    | MismatchedBufferBinding(index: nat)
    | MisalignedBufferOffset(index: nat)
    | BufferRangeOutOfBounds(index: nat)
    | MismatchedSamplerBinding(index: nat)
    | MismatchedTextureBinding(index: nat)

  /** The usage a buffer binding of this type puts its buffer in; none for non-buffer types. */
  function BufferBindingUsage(ty: BindingType): Option<BufferUsage.Flags> {
    match ty
    case UniformBuffer => Some(BufferUsage.UNIFORM)
    case StorageBuffer => Some(BufferUsage.STORAGE)
    case ReadonlyStorageBuffer => Some(BufferUsage.STORAGE_READ)
    case _ => None
  }

  /** The check and descriptor of binding number `index` against its declaration. */
  function CheckBinding(index: nat, ty: BindingType, res: BindingResource, bufferSizes: map<BufferId, nat>): Result<Descriptor, BindError>
    requires res.BufferBinding? ==> res.buffer in bufferSizes
  {
    match res
    case BufferBinding(buffer, offset, size) =>
      if BufferBindingUsage(ty).None? then Failure(MismatchedBufferBinding(index))
      else if offset % BIND_BUFFER_ALIGNMENT != 0 then Failure(MisalignedBufferOffset(index))
      else if size != 0 && offset + size > bufferSizes[buffer] then Failure(BufferRangeOutOfBounds(index))
      else Success(BufferDescriptor(buffer, offset, if size == 0 then None else Some(offset + size), BufferBindingUsage(ty).value))
    case SamplerBinding(sampler) =>
      if ty != Sampler then Failure(MismatchedSamplerBinding(index)) else Success(SamplerDescriptor(sampler))
    case TextureViewBinding(view) =>
      match ty
      case SampledTexture => Success(ImageDescriptor(view, TextureUsage.SAMPLED))
      case StorageTexture => Success(ImageDescriptor(view, TextureUsage.STORAGE))
      case _ => Failure(MismatchedTextureBinding(index))
  }

  /**
   * An accepted buffer binding starts at a multiple of 256 and either fits in its buffer
   * or runs to its end; it is accepted only for uniform and storage declarations.
   */
  lemma AcceptedBufferBinding(index: nat, ty: BindingType, buffer: BufferId, offset: nat, size: nat, bufferSizes: map<BufferId, nat>)
    requires buffer in bufferSizes
    ensures var r := CheckBinding(index, ty, BufferBinding(buffer, offset, size), bufferSizes);
            r.Success? <==>
              && ty in {UniformBuffer, StorageBuffer, ReadonlyStorageBuffer}
              && offset % BIND_BUFFER_ALIGNMENT == 0
              && (size == 0 || offset + size <= bufferSizes[buffer])
    ensures var r := CheckBinding(index, ty, BufferBinding(buffer, offset, size), bufferSizes);
            r.Success? ==>
              && r.value.BufferDescriptor? && r.value.start == offset && (r.value.end.Some? <==> size != 0)
              && (r.value.end.Some? ==> r.value.end.value - r.value.start == size && r.value.end.value <= bufferSizes[buffer])
  {
  }

  /** The buffers a group's descriptors use, and how: only buffer descriptors contribute. */
  function UsedBy(ds: seq<Descriptor>): Track.TrackerSet {
    if |ds| == 0 then Track.EMPTY
    else
      var t := UsedBy(ds[..|ds| - 1]);
      var d := ds[|ds| - 1];
      if d.BufferDescriptor? then Track.UseExtend(t, d.buffer, d.usage) else t
  }

  /** Every buffer descriptor's buffer is tracked by the group, in at least the descriptor's usage. */
  lemma {:induction false} UsedByCovers(ds: seq<Descriptor>)
    ensures forall i :: 0 <= i < |ds| && ds[i].BufferDescriptor? ==>
      ds[i].buffer in UsedBy(ds).buffers && BufferUsage.Contains(UsedBy(ds).buffers[ds[i].buffer], ds[i].usage)
  {
    if |ds| > 0 {
      var prefix := ds[..|ds| - 1];
      UsedByCovers(prefix);
      var t := UsedBy(prefix);
      var d := ds[|ds| - 1];
      forall i | 0 <= i < |ds| - 1 && ds[i].BufferDescriptor?
        ensures ds[i].buffer in UsedBy(ds).buffers && BufferUsage.Contains(UsedBy(ds).buffers[ds[i].buffer], ds[i].usage)
      {
        assert prefix[i] == ds[i];
        var b := ds[i].buffer;
        if d.BufferDescriptor? && d.buffer == b {
          BufferUsage.ContainsTransitive(UsedBy(ds).buffers[b], t.buffers[b], ds[i].usage);
        }
      }
    }
  }

  /**
   * The checks `device_create_bind_group` makes, binding by binding in the order of
   * the layout, stopping at the first failure: the descriptors to write and the
   * buffers the group uses.
   */
  method CreateBindGroup(layout: seq<BindGroupLayoutBinding>, bindings: seq<BindingResource>, bufferSizes: map<BufferId, nat>)
    returns (r: Result<(seq<Descriptor>, Track.TrackerSet), BindError>)
    requires forall i :: 0 <= i < |bindings| && bindings[i].BufferBinding? ==> bindings[i].buffer in bufferSizes
    ensures |bindings| != |layout| ==> r == Failure(BindingCountMismatch)
    ensures r.Success? <==>
      |bindings| == |layout| && forall i :: 0 <= i < |bindings| ==> CheckBinding(i, layout[i].ty, bindings[i], bufferSizes).Success?
    ensures r.Success? ==>
      && |r.value.0| == |bindings|
      && (forall i :: 0 <= i < |bindings| ==> r.value.0[i] == CheckBinding(i, layout[i].ty, bindings[i], bufferSizes).value)
      && r.value.1 == UsedBy(r.value.0)
    ensures r.Failure? && |bindings| == |layout| ==>
      exists i :: 0 <= i < |bindings| && CheckBinding(i, layout[i].ty, bindings[i], bufferSizes) == Failure(r.error) &&
        (forall j :: 0 <= j < i ==> CheckBinding(j, layout[j].ty, bindings[j], bufferSizes).Success?)
  {
    if |bindings| != |layout| {
      return Failure(BindingCountMismatch);
    }
    var descriptors: seq<Descriptor> := [];
    var used := Track.EMPTY;
    var i := 0;
    while i < |bindings|
      invariant 0 <= i <= |bindings| && |descriptors| == i
      invariant forall j :: 0 <= j < i ==> CheckBinding(j, layout[j].ty, bindings[j], bufferSizes).Success?
      invariant forall j :: 0 <= j < i ==> descriptors[j] == CheckBinding(j, layout[j].ty, bindings[j], bufferSizes).value
      invariant used == UsedBy(descriptors)
    {
      var c := CheckBinding(i, layout[i].ty, bindings[i], bufferSizes);
      if c.Failure? {
        return Failure(c.error);
      }
      var d := c.value;
      if d.BufferDescriptor? {
        used := Track.UseExtend(used, d.buffer, d.usage);
      }
      descriptors := descriptors + [d];
      assert descriptors[..|descriptors| - 1] == descriptors[..i];
      i := i + 1;
    }
    r := Success((descriptors, used));
  }

  /** What a pass needs of a bind group: its layout, its layout's dynamic-binding count and the buffers it uses. */
  datatype BindGroup = BindGroup(layoutId: nat, dynamicCount: nat, used: Track.TrackerSet)

  /** Render pipelines may only be created with these sample counts. */
  predicate ValidSampleCount(sc: nat) {
    sc == 1 || sc == 2 || sc == 4 || sc == 8 || sc == 16 || sc == 32
  }

  function Pow2(k: nat): nat {
    if k == 0 then 1 else 2 * Pow2(k - 1)
  }

  /** The accepted sample counts are exactly the powers of two up to 32. */
  lemma ValidSampleCountIsPowerOfTwo(sc: nat)
    ensures ValidSampleCount(sc) <==> exists k :: 0 <= k <= 5 && sc == Pow2(k)
  {
    assert Pow2(0) == 1 && Pow2(1) == 2 && Pow2(2) == 4 && Pow2(3) == 8 && Pow2(4) == 16 && Pow2(5) == 32;
    if !ValidSampleCount(sc) {
      forall k: nat | k <= 5
        ensures sc != Pow2(k)
      {
        assert k == 0 || k == 1 || k == 2 || k == 3 || k == 4 || k == 5;
      }
    }
  }

  datatype IndexFormat = Uint16 | Uint32
  datatype InputStepMode = Vertex | Instance

  /** A vertex buffer layout of a pipeline: its stride and step rate. */
  datatype VertexStride = VertexStride(stride: nat, rate: InputStepMode)

  /** A vertex buffer of a pipeline descriptor: stride, step rate and the byte offsets of its attributes. */
  datatype VertexBufferDescriptor = VertexBufferDescriptor(stride: nat, rate: InputStepMode, attributeOffsets: seq<nat>)

  /** The strides and step rates the pipeline keeps, one per vertex buffer of the descriptor. */
  function Strides(buffers: seq<VertexBufferDescriptor>): (r: seq<VertexStride>)
    ensures |r| == |buffers|
    ensures forall i :: 0 <= i < |buffers| ==> r[i] == VertexStride(buffers[i].stride, buffers[i].rate)
  {
    seq(|buffers|, i requires 0 <= i < |buffers| => VertexStride(buffers[i].stride, buffers[i].rate))
  }

  /** Whether every attribute offset has its upper 32 bits clear, so it converts to a `u32` unchanged. */
  function OffsetsFit(buffers: seq<VertexBufferDescriptor>): (r: bool)
    ensures r <==> forall i, j :: 0 <= i < |buffers| && 0 <= j < |buffers[i].attributeOffsets| ==>
                     buffers[i].attributeOffsets[j] < U32_RANGE
  {
    if |buffers| == 0 then true
    else
      var rest := OffsetsFit(buffers[1..]);
      assert forall i :: 1 <= i < |buffers| ==> buffers[1..][i - 1] == buffers[i];
      (forall j :: 0 <= j < |buffers[0].attributeOffsets| ==> buffers[0].attributeOffsets[j] < U32_RANGE) && rest
  }

  /** What a render pipeline needs from a pass. */
  datatype PipelineFlags = PipelineFlags(blendColor: bool, stencilReference: bool)

  datatype RenderPipeline = RenderPipeline(
    layoutId: nat, groupLayouts: seq<nat>, passContext: RenderPassContext, flags: PipelineFlags,
    indexFormat: IndexFormat, vertexStrides: seq<VertexStride>, sampleCount: nat)

  /** A colour target state: its format and whether its colour or alpha blend reads the blend constant. */
  datatype ColorState = ColorState(format: TextureFormat, usesBlendColor: bool)
  /** A depth-stencil state: its format and whether a stencil face compares against the reference. */
  datatype DepthStencilState = DepthStencilState(format: TextureFormat, needsStencilReference: bool)

  datatype PipelineError = InvalidSampleCount | AttributeOffsetTooLarge | TooManyColorTargets

  function AnyUsesBlendColor(colors: seq<ColorState>): (r: bool)
    ensures r <==> exists i :: 0 <= i < |colors| && colors[i].usesBlendColor
  {
    if |colors| == 0 then false else colors[0].usesBlendColor || AnyUsesBlendColor(colors[1..])
  }

  /**
   * The state `device_create_render_pipeline` keeps about a pipeline: the sample count is
   * checked, then every vertex attribute offset must fit in 32 bits, the pass context
   * holds the colour formats (at most four) and the depth format with no resolves, and
   * the flags say whether draws need a blend colour or a stencil reference.
   */
  function CreateRenderPipeline(
    layoutId: nat, groupLayouts: seq<nat>, colors: seq<ColorState>, depthStencil: Option<DepthStencilState>,
    indexFormat: IndexFormat, vertexBuffers: seq<VertexBufferDescriptor>, sampleCount: nat): (r: Result<RenderPipeline, PipelineError>)
    ensures !ValidSampleCount(sampleCount) ==> r == Failure(InvalidSampleCount)
    ensures ValidSampleCount(sampleCount) &&
            (exists i, j :: 0 <= i < |vertexBuffers| && 0 <= j < |vertexBuffers[i].attributeOffsets| &&
                            vertexBuffers[i].attributeOffsets[j] >= U32_RANGE)
            ==> r == Failure(AttributeOffsetTooLarge)
    ensures r.Success? <==>
            && ValidSampleCount(sampleCount) && |colors| <= MAX_COLOR_TARGETS
            && (forall i, j :: 0 <= i < |vertexBuffers| && 0 <= j < |vertexBuffers[i].attributeOffsets| ==>
                                vertexBuffers[i].attributeOffsets[j] < U32_RANGE)
    ensures r.Success? ==>
      && |r.value.passContext.colors| == |colors|
      && (forall i :: 0 <= i < |colors| ==> r.value.passContext.colors[i] == colors[i].format)
      && r.value.passContext.resolves == []
      && (r.value.passContext.depthStencil.Some? <==> depthStencil.Some?)
      && (depthStencil.Some? ==> r.value.passContext.depthStencil.value == depthStencil.value.format)
      && (r.value.flags.blendColor <==> exists i :: 0 <= i < |colors| && colors[i].usesBlendColor)
      && (r.value.flags.stencilReference <==> depthStencil.Some? && depthStencil.value.needsStencilReference)
      && r.value.sampleCount == sampleCount
      && |r.value.vertexStrides| == |vertexBuffers|
      && (forall i :: 0 <= i < |vertexBuffers| ==>
            r.value.vertexStrides[i].stride == vertexBuffers[i].stride && r.value.vertexStrides[i].rate == vertexBuffers[i].rate)
      && r.value.layoutId == layoutId && r.value.groupLayouts == groupLayouts && r.value.indexFormat == indexFormat
  {
    if !ValidSampleCount(sampleCount) then Failure(InvalidSampleCount)
    else if !OffsetsFit(vertexBuffers) then Failure(AttributeOffsetTooLarge)
    else if |colors| > MAX_COLOR_TARGETS then Failure(TooManyColorTargets)
    else
      var context := AttachmentData(
        seq(|colors|, i requires 0 <= i < |colors| => colors[i].format),
        [],
        if depthStencil.Some? then Some(depthStencil.value.format) else None);
      var flags := PipelineFlags(
        AnyUsesBlendColor(colors),
        depthStencil.Some? && depthStencil.value.needsStencilReference);
      Success(RenderPipeline(layoutId, groupLayouts, context, flags, indexFormat, Strides(vertexBuffers), sampleCount))
  }
}
