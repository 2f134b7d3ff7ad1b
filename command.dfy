/**
 * The command encoder: its chain of backend command buffers, its usage tracker, and
 * the beginning and end of the passes recorded into it. Beginning a render pass
 * checks its attachments, numbers the resolve and depth attachments of the backend
 * render pass, keys its framebuffer and chooses its clear values.
 */
module Command {
  import opened Wrappers
  import Track
  import DeviceValidation
  import opened PassCommon
  import Render
  import Compute
  import Bind

  type TextureViewId = nat

  datatype Extent = Extent(width: nat, height: nat, depth: nat)

  /** A `u8`. */
  type Byte = x: int | 0 <= x < 256

  /** What a pass needs of a texture view: its sample count, its size and its format. */
  datatype ViewInfo = ViewInfo(samples: Byte, extent: Extent, format: DeviceValidation.TextureFormat)

  /** The device supports a sample count when its bit is in the device's mask of supported counts. */
  predicate Supported(sampleCount: Byte, sampleLimit: bv8) {
    (sampleCount as bv8) & sampleLimit != 0
  }

  datatype LoadOp = Clear | Load

  datatype ColorAttachment = ColorAttachment(attachment: TextureViewId, resolveTarget: Option<TextureViewId>, loadOp: LoadOp)

  datatype DepthStencilAttachment = DepthStencilAttachment(attachment: TextureViewId, depthLoadOp: LoadOp, stencilLoadOp: LoadOp)

  /** The assertions of `begin_render_pass`, each reported instead of a panic. */
  datatype AttachmentError =
    | UnsupportedSampleCount
    | ColorSampleCountMismatch(index: nat)
    | ResolveSampleCount(index: nat)
    | ExtentMismatch
    | TooManyColorAttachments
    | ResolveSourceNotMultisampled(index: nat)
    | NoAttachments

  datatype CommandError = NoCommandBuffer

  /** Every view the attachments name is known. */
  predicate KnownViews(colors: seq<ColorAttachment>, depth: Option<DepthStencilAttachment>, views: map<TextureViewId, ViewInfo>) {
    && (forall i :: 0 <= i < |colors| ==> colors[i].attachment in views)
    && (forall i :: 0 <= i < |colors| && colors[i].resolveTarget.Some? ==> colors[i].resolveTarget.value in views)
    && (depth.Some? ==> depth.value.attachment in views)
  }

  /** The sample count of a pass: that of its first colour attachment, or 1 without colours. */
  function PassSampleCount(colors: seq<ColorAttachment>, views: map<TextureViewId, ViewInfo>): Byte
    requires forall i :: 0 <= i < |colors| ==> colors[i].attachment in views
  {
    if |colors| == 0 then 1 else views[colors[0].attachment].samples
  }

  /** Every colour before `n` has the pass's sample count and every resolve target before `n` is single-sampled. */
  predicate SamplesAgreeBefore(colors: seq<ColorAttachment>, views: map<TextureViewId, ViewInfo>, sampleCount: Byte, n: nat)
    requires n <= |colors|
    requires forall i :: 0 <= i < |colors| ==> colors[i].attachment in views
    requires forall i :: 0 <= i < |colors| && colors[i].resolveTarget.Some? ==> colors[i].resolveTarget.value in views
  {
    forall i :: 0 <= i < n ==>
      && views[colors[i].attachment].samples == sampleCount
      && (colors[i].resolveTarget.Some? ==> views[colors[i].resolveTarget.value].samples == 1)
  }

  /** The extent every attachment of a pass must have: the depth-stencil's, or else the first colour's. */
  function FirstExtent(colors: seq<ColorAttachment>, depth: Option<DepthStencilAttachment>, views: map<TextureViewId, ViewInfo>): Extent
    requires KnownViews(colors, depth, views) && (|colors| > 0 || depth.Some?)
  {
    if depth.Some? then views[depth.value.attachment].extent else views[colors[0].attachment].extent
  }

  /** The depth-stencil, every colour before `n` and each of their resolve targets have extent `e`. */
  predicate ShareExtent(colors: seq<ColorAttachment>, depth: Option<DepthStencilAttachment>, views: map<TextureViewId, ViewInfo>,
                        n: nat, e: Extent)
    requires KnownViews(colors, depth, views) && n <= |colors|
  {
    && (depth.Some? ==> views[depth.value.attachment].extent == e)
    && forall j :: 0 <= j < n ==>
         && views[colors[j].attachment].extent == e
         && (colors[j].resolveTarget.Some? ==> views[colors[j].resolveTarget.value].extent == e)
  }

  /**
   * The sample-count checks of `begin_render_pass`: the pass's count must be one the
   * device supports, every colour must have it and every resolve target must have 1.
   */
  method CheckSamples(colors: seq<ColorAttachment>, views: map<TextureViewId, ViewInfo>, sampleLimit: bv8)
    returns (r: Result<Byte, AttachmentError>)
    requires forall i :: 0 <= i < |colors| ==> colors[i].attachment in views
    requires forall i :: 0 <= i < |colors| && colors[i].resolveTarget.Some? ==> colors[i].resolveTarget.value in views
    ensures !Supported(PassSampleCount(colors, views), sampleLimit) ==> r == Failure(UnsupportedSampleCount)
    ensures r.Success? <==>
      Supported(PassSampleCount(colors, views), sampleLimit) && SamplesAgreeBefore(colors, views, PassSampleCount(colors, views), |colors|)
    ensures r.Success? ==> r.value == PassSampleCount(colors, views)
    ensures r.Failure? ==> r.error.UnsupportedSampleCount? || r.error.ColorSampleCountMismatch? || r.error.ResolveSampleCount?
    ensures forall i: nat :: r == Failure(ColorSampleCountMismatch(i)) ==>
      i < |colors| && SamplesAgreeBefore(colors, views, PassSampleCount(colors, views), i)
      && views[colors[i].attachment].samples != PassSampleCount(colors, views)
    ensures forall i: nat :: r == Failure(ResolveSampleCount(i)) ==>
      i < |colors| && SamplesAgreeBefore(colors, views, PassSampleCount(colors, views), i)
      && views[colors[i].attachment].samples == PassSampleCount(colors, views)
  {
    var sampleCount := if |colors| == 0 then 1 else views[colors[0].attachment].samples;
    assert sampleCount == PassSampleCount(colors, views);
    if !Supported(sampleCount, sampleLimit) {
      return Failure(UnsupportedSampleCount);
    }
    var i := 0;
    while i < |colors|
      invariant 0 <= i <= |colors|
      invariant SamplesAgreeBefore(colors, views, sampleCount, i)
    {
      if views[colors[i].attachment].samples != sampleCount {
        assert !SamplesAgreeBefore(colors, views, sampleCount, |colors|);
        return Failure(ColorSampleCountMismatch(i));
      }
      if colors[i].resolveTarget.Some? && views[colors[i].resolveTarget.value].samples != 1 {
        assert !SamplesAgreeBefore(colors, views, sampleCount, |colors|);
        return Failure(ResolveSampleCount(i));
      }
      i := i + 1;
    }
    r := Success(sampleCount);
  }

  /** Whether the extent checks of a pass hold: at most four colours, some attachment, and one extent for all. */
  predicate ExtentsOk(colors: seq<ColorAttachment>, depth: Option<DepthStencilAttachment>, views: map<TextureViewId, ViewInfo>)
    requires KnownViews(colors, depth, views)
  {
    && |colors| <= DeviceValidation.MAX_COLOR_TARGETS && (|colors| > 0 || depth.Some?)
    && ShareExtent(colors, depth, views, |colors|, FirstExtent(colors, depth, views))
  }

  /**
   * The extent checks of `begin_render_pass`: the first view visited (the depth-stencil,
   * else the first colour) fixes the extent and every later one, each colour and then
   * its resolve target, must match it. A fifth colour overflows the attachment list
   * right after its own extent is checked, and a pass with no attachment has no extent.
   */
  method CheckExtents(colors: seq<ColorAttachment>, depth: Option<DepthStencilAttachment>, views: map<TextureViewId, ViewInfo>)
    returns (r: Result<Extent, AttachmentError>)
    requires KnownViews(colors, depth, views)
    ensures r.Success? <==> ExtentsOk(colors, depth, views)
    ensures r.Success? ==> r.value == FirstExtent(colors, depth, views)
    ensures r.Failure? ==> r.error == ExtentMismatch || r.error == TooManyColorAttachments || r.error == NoAttachments
    ensures r == Failure(NoAttachments) <==> |colors| == 0 && depth.None?
  {
    var extent: Option<Extent> := None;
    if depth.Some? {
      extent := Some(views[depth.value.attachment].extent);
    }
    var i := 0;
    while i < |colors|
      invariant 0 <= i <= |colors| && i <= DeviceValidation.MAX_COLOR_TARGETS
      invariant extent.None? <==> i == 0 && depth.None?
      invariant extent.Some? ==> extent.value == FirstExtent(colors, depth, views) && ShareExtent(colors, depth, views, i, extent.value)
    {
      var c := colors[i];
      var e := views[c.attachment].extent;
      if extent.Some? && extent.value != e {
        return Failure(ExtentMismatch);
      }
      extent := Some(e);
      if i >= DeviceValidation.MAX_COLOR_TARGETS {
        return Failure(TooManyColorAttachments);
      }
      if c.resolveTarget.Some? && views[c.resolveTarget.value].extent != e {
        return Failure(ExtentMismatch);
      }
      i := i + 1;
    }
    if extent.None? {
      return Failure(NoAttachments);
    }
    r := Success(extent.value);
  }

  /** The colour attachments' views, in order. */
  function Attachments(colors: seq<ColorAttachment>): (r: seq<TextureViewId>)
    ensures |r| == |colors| && forall i :: 0 <= i < |colors| ==> r[i] == colors[i].attachment
  {
    seq(|colors|, i requires 0 <= i < |colors| => colors[i].attachment)
  }

  /** The resolve targets of the colours that have one, in order. */
  function Resolves(colors: seq<ColorAttachment>): (r: seq<TextureViewId>)
    ensures |r| <= |colors|
  {
    if |colors| == 0 then []
    else
      var c := colors[|colors| - 1];
      Resolves(colors[..|colors| - 1]) + (if c.resolveTarget.Some? then [c.resolveTarget.value] else [])
  }

  predicate AnyResolve(colors: seq<ColorAttachment>) {
    exists i :: 0 <= i < |colors| && colors[i].resolveTarget.Some?
  }

  /**
   * The `i`-th colour's resolve target sits in `Resolves(colors)` right after those of
   * the colours before it.
   */
  lemma {:induction false} ResolvesAt(colors: seq<ColorAttachment>, i: nat)
    requires i < |colors| && colors[i].resolveTarget.Some?
    ensures |Resolves(colors[..i])| < |Resolves(colors)|
    ensures Resolves(colors)[|Resolves(colors[..i])|] == colors[i].resolveTarget.value
    decreases |colors|
  {
    var front := colors[..|colors| - 1];
    if i == |colors| - 1 {
      assert colors[..i] == front;
    } else {
      assert front[..i] == colors[..i];
      ResolvesAt(front, i);
    }
  }

  /** A colour without a resolve target adds nothing to the resolves of the colours before it. */
  lemma ResolvesStep(colors: seq<ColorAttachment>, i: nat)
    requires i < |colors|
    ensures Resolves(colors[..i + 1]) ==
      Resolves(colors[..i]) + (if colors[i].resolveTarget.Some? then [colors[i].resolveTarget.value] else [])
  {
    assert colors[..i + 1][..i] == colors[..i];
  }

  /** Without any resolve target there are no resolves. */
  lemma {:induction false} NoResolves(colors: seq<ColorAttachment>)
    requires !AnyResolve(colors)
    ensures Resolves(colors) == []
  {
    if |colors| > 0 {
      var front := colors[..|colors| - 1];
      assert !AnyResolve(front) by {
        assert forall i :: 0 <= i < |front| ==> front[i] == colors[i];
      }
      NoResolves(front);
    }
  }

  /** Where each colour's resolve target goes among the render pass's attachments. */
  function ResolveIndex(colors: seq<ColorAttachment>, i: nat): (r: Option<nat>)
    requires i < |colors|
  {
    if colors[i].resolveTarget.Some? then Some(|colors| + |Resolves(colors[..i])|) else None
  }

  /** The first colour whose resolve target has a single-sampled source. */
  predicate FirstSingleSampledSource(colors: seq<ColorAttachment>, views: map<TextureViewId, ViewInfo>, i: nat)
    requires forall j :: 0 <= j < |colors| ==> colors[j].attachment in views
  {
    && i < |colors| && colors[i].resolveTarget.Some? && views[colors[i].attachment].samples <= 1
    && forall j :: 0 <= j < i && colors[j].resolveTarget.Some? ==> views[colors[j].attachment].samples > 1
  }

  /**
   * The resolve references of the backend render pass: none when no colour resolves;
   * otherwise one per colour, numbering the resolve targets after the colours. A colour
   * with a resolve target must itself be multisampled. The depth-stencil comes after
   * every colour and resolve target.
   */
  method ResolveIds(colors: seq<ColorAttachment>, views: map<TextureViewId, ViewInfo>)
    returns (r: Result<(seq<Option<nat>>, nat), AttachmentError>)
    requires forall i :: 0 <= i < |colors| ==> colors[i].attachment in views
    ensures r.Success? <==>
      forall i :: 0 <= i < |colors| && colors[i].resolveTarget.Some? ==> views[colors[i].attachment].samples > 1
    ensures r.Failure? ==> r.error.ResolveSourceNotMultisampled? && FirstSingleSampledSource(colors, views, r.error.index)
    ensures r.Success? ==> r.value.1 == |colors| + |Resolves(colors)|
    ensures r.Success? && !AnyResolve(colors) ==> r.value.0 == []
    ensures r.Success? && AnyResolve(colors) ==>
      |r.value.0| == |colors| && forall i :: 0 <= i < |colors| ==> r.value.0[i] == ResolveIndex(colors, i)
  {
    var attachmentIndex := |colors|;
    var ids: seq<Option<nat>> := [];
    var any := false;
    var k := 0;
    while k < |colors|
      invariant 0 <= k <= |colors|
      invariant any <==> exists j :: 0 <= j < k && colors[j].resolveTarget.Some?
    {
      any := any || colors[k].resolveTarget.Some?;
      k := k + 1;
    }
    if any {
      var i := 0;
      while i < |colors|
        invariant 0 <= i <= |colors|
        invariant attachmentIndex == |colors| + |Resolves(colors[..i])|
        invariant |ids| == i && forall j :: 0 <= j < i ==> ids[j] == ResolveIndex(colors, j)
        invariant forall j :: 0 <= j < i && colors[j].resolveTarget.Some? ==> views[colors[j].attachment].samples > 1
      {
        ResolvesStep(colors, i);
        if colors[i].resolveTarget.None? {
          ids := ids + [None];
        } else {
          if views[colors[i].attachment].samples <= 1 {
            return Failure(ResolveSourceNotMultisampled(i));
          }
          ids := ids + [Some(attachmentIndex)];
          attachmentIndex := attachmentIndex + 1;
        }
        i := i + 1;
      }
      assert colors[..i] == colors;
    } else {
      NoResolves(colors);
    }
    r := Success((ids, attachmentIndex));
  }

  /** The views of a pass's framebuffer: colours, resolve targets, depth-stencil. */
  function FramebufferKey(colors: seq<ColorAttachment>, depth: Option<DepthStencilAttachment>): (r: DeviceValidation.AttachmentData<TextureViewId>)
    ensures r.colors == Attachments(colors) && r.resolves == Resolves(colors)
    ensures r.depthStencil.Some? <==> depth.Some?
    ensures depth.Some? ==> r.depthStencil.value == depth.value.attachment
  {
    DeviceValidation.AttachmentData(Attachments(colors), Resolves(colors),
      if depth.Some? then Some(depth.value.attachment) else None)
  }

  /**
   * The render pass and its framebuffer agree: colour `i` is attachment `i`, the
   * resolve reference of a colour names its resolve target, and the depth reference
   * names the depth-stencil attachment.
   */
  lemma ReferencesMatchFramebuffer(colors: seq<ColorAttachment>, depth: Option<DepthStencilAttachment>)
    ensures var all := FramebufferKey(colors, depth).All();
      forall i :: 0 <= i < |colors| ==> all[i] == colors[i].attachment
    ensures var all := FramebufferKey(colors, depth).All();
      forall i :: 0 <= i < |colors| && colors[i].resolveTarget.Some? ==>
        ResolveIndex(colors, i).value < |all| && all[ResolveIndex(colors, i).value] == colors[i].resolveTarget.value
    ensures var all := FramebufferKey(colors, depth).All();
      depth.Some? ==> |colors| + |Resolves(colors)| < |all| && all[|colors| + |Resolves(colors)|] == depth.value.attachment
  {
    var key := FramebufferKey(colors, depth);
    forall i | 0 <= i < |colors| && colors[i].resolveTarget.Some?
      ensures ResolveIndex(colors, i).value < |key.All()|
      ensures key.All()[ResolveIndex(colors, i).value] == colors[i].resolveTarget.value
    {
      ResolvesAt(colors, i);
    }
  }

  /** The formats of the given views. */
  function Formats(ids: seq<TextureViewId>, views: map<TextureViewId, ViewInfo>): (r: seq<DeviceValidation.TextureFormat>)
    requires forall v :: v in ids ==> v in views
    ensures |r| == |ids| && forall i :: 0 <= i < |ids| ==> r[i] == views[ids[i]].format
  {
    seq(|ids|, i requires 0 <= i < |ids| => views[ids[i]].format)
  }

  /** Every resolve target is among the colours' resolve targets. */
  lemma {:induction false} ResolvesKnown(colors: seq<ColorAttachment>, views: map<TextureViewId, ViewInfo>)
    requires forall i :: 0 <= i < |colors| && colors[i].resolveTarget.Some? ==> colors[i].resolveTarget.value in views
    ensures forall v :: v in Resolves(colors) ==> v in views
  {
    if |colors| > 0 {
      var front := colors[..|colors| - 1];
      assert forall i :: 0 <= i < |front| ==> front[i] == colors[i];
      ResolvesKnown(front, views);
    }
  }

  /** The formats a render pass is recorded against: those of its colours, resolve targets and depth-stencil. */
  function PassContext(colors: seq<ColorAttachment>, depth: Option<DepthStencilAttachment>, views: map<TextureViewId, ViewInfo>)
    : (r: DeviceValidation.RenderPassContext)
    requires KnownViews(colors, depth, views)
    ensures forall v :: v in FramebufferKey(colors, depth).All() ==> v in views
    ensures r.All() == Formats(FramebufferKey(colors, depth).All(), views)
  {
    ResolvesKnown(colors, views);
    var key := FramebufferKey(colors, depth);
    var r := DeviceValidation.AttachmentData(Formats(key.colors, views), Formats(key.resolves, views),
      if depth.Some? then Some(views[depth.value.attachment].format) else None);
    assert r.All() == Formats(key.All(), views);
    r
  }

  /** The indices of the colours before `n` cleared on load, in increasing order. */
  function ColorClears(colors: seq<ColorAttachment>, n: nat): (r: seq<nat>)
    requires n <= |colors|
    ensures forall a :: 0 <= a < |r| ==> r[a] < n && colors[r[a]].loadOp == Clear
    ensures forall k :: 0 <= k < n && colors[k].loadOp == Clear ==> k in r
    ensures forall a, b :: 0 <= a < b < |r| ==> r[a] < r[b]
  {
    if n == 0 then []
    else
      var front := ColorClears(colors, n - 1);
      front + (if colors[n - 1].loadOp == Clear then [n - 1] else [])
  }

  /**
   * The clear values of `begin_render_pass`: one per colour cleared on load, in colour
   * order, then one for the depth-stencil if its depth or its stencil is cleared.
   */
  function ClearValues(colors: seq<ColorAttachment>, depth: Option<DepthStencilAttachment>): (r: seq<ClearValue>)
  {
    var colorValues := seq(|ColorClears(colors, |colors|)|, k requires 0 <= k < |ColorClears(colors, |colors|)| => ColorClear(ColorClears(colors, |colors|)[k]));
    colorValues + (if depth.Some? && (depth.value.depthLoadOp == Clear || depth.value.stencilLoadOp == Clear) then [DepthStencilClear] else [])
  }

  /** Each cleared colour gets exactly one clear value, and the depth-stencil's comes last. */
  lemma ClearValuesMeaning(colors: seq<ColorAttachment>, depth: Option<DepthStencilAttachment>)
    ensures var vs := ClearValues(colors, depth);
      forall a :: 0 <= a < |vs| && vs[a].ColorClear? ==> vs[a].colorIndex < |colors| && colors[vs[a].colorIndex].loadOp == Clear
    ensures forall k :: 0 <= k < |colors| && colors[k].loadOp == Clear ==> ColorClear(k) in ClearValues(colors, depth)
    ensures DepthStencilClear in ClearValues(colors, depth) <==>
      depth.Some? && (depth.value.depthLoadOp == Clear || depth.value.stencilLoadOp == Clear)
    ensures var vs := ClearValues(colors, depth);
      forall a, b :: 0 <= a < b < |vs| ==> vs[a] != vs[b]
    ensures var vs := ClearValues(colors, depth);
      forall a :: 0 <= a < |vs| - 1 ==> vs[a].ColorClear?
  {
    var cs := ColorClears(colors, |colors|);
    var vs := ClearValues(colors, depth);
    var depthClears := depth.Some? && (depth.value.depthLoadOp == Clear || depth.value.stencilLoadOp == Clear);
    assert |vs| == |cs| + (if depthClears then 1 else 0);
    assert forall a :: 0 <= a < |cs| ==> vs[a] == ColorClear(cs[a]);
    assert depthClears ==> vs[|cs|] == DepthStencilClear;
    forall k | 0 <= k < |colors| && colors[k].loadOp == Clear
      ensures ColorClear(k) in vs
    {
      var a :| 0 <= a < |cs| && cs[a] == k;
      assert vs[a] == ColorClear(k);
    }
  }

  /** The resolve references a pass records: none when no colour resolves, else one per colour. */
  function ResolveReferences(colors: seq<ColorAttachment>): (r: seq<Option<nat>>)
    ensures !AnyResolve(colors) ==> r == []
    ensures AnyResolve(colors) ==> |r| == |colors| && forall i :: 0 <= i < |colors| ==> r[i] == ResolveIndex(colors, i)
  {
    if AnyResolve(colors) then seq(|colors|, i requires 0 <= i < |colors| => ResolveIndex(colors, i)) else []
  }

  /** Whether the sample-count checks of a pass hold. */
  predicate SamplesOk(colors: seq<ColorAttachment>, views: map<TextureViewId, ViewInfo>, sampleLimit: bv8)
    requires forall i :: 0 <= i < |colors| ==> colors[i].attachment in views
    requires forall i :: 0 <= i < |colors| && colors[i].resolveTarget.Some? ==> colors[i].resolveTarget.value in views
  {
    Supported(PassSampleCount(colors, views), sampleLimit) && SamplesAgreeBefore(colors, views, PassSampleCount(colors, views), |colors|)
  }

  /** Whether every colour with a resolve target is multisampled. */
  predicate ResolveSourcesOk(colors: seq<ColorAttachment>, views: map<TextureViewId, ViewInfo>)
    requires forall i :: 0 <= i < |colors| ==> colors[i].attachment in views
  {
    forall i :: 0 <= i < |colors| && colors[i].resolveTarget.Some? ==> views[colors[i].attachment].samples > 1
  }

  /** Whether every check `begin_render_pass` makes of its attachments holds. */
  predicate AttachmentsOk(colors: seq<ColorAttachment>, depth: Option<DepthStencilAttachment>,
                          views: map<TextureViewId, ViewInfo>, sampleLimit: bv8)
    requires KnownViews(colors, depth, views)
  {
    SamplesOk(colors, views, sampleLimit) && ExtentsOk(colors, depth, views) && ResolveSourcesOk(colors, views)
  }

  /**
   * The error `begin_render_pass` reports is one of the first group of checks that
   * fails: sample counts, then extents, then the first single-sampled resolve source.
   */
  predicate ErrorExplained(colors: seq<ColorAttachment>, depth: Option<DepthStencilAttachment>,
                           views: map<TextureViewId, ViewInfo>, sampleLimit: bv8, e: AttachmentError)
    requires KnownViews(colors, depth, views)
  {
    if !SamplesOk(colors, views, sampleLimit) then
      e.UnsupportedSampleCount? || e.ColorSampleCountMismatch? || e.ResolveSampleCount?
    else if !ExtentsOk(colors, depth, views) then
      e == ExtentMismatch || e == TooManyColorAttachments || e == NoAttachments
    else
      e.ResolveSourceNotMultisampled? && FirstSingleSampledSource(colors, views, e.index)
  }

  /**
   * The attachment checks of `begin_render_pass`, in the source's order; on success,
   * the pass's sample count and the resolve references of its backend render pass.
   */
  method CheckAttachments(colors: seq<ColorAttachment>, depth: Option<DepthStencilAttachment>,
                          views: map<TextureViewId, ViewInfo>, sampleLimit: bv8)
    returns (r: Result<(Byte, seq<Option<nat>>), AttachmentError>)
    requires KnownViews(colors, depth, views)
    ensures r.Success? <==> AttachmentsOk(colors, depth, views, sampleLimit)
    ensures r.Failure? ==> ErrorExplained(colors, depth, views, sampleLimit, r.error)
    ensures r.Success? ==> r.value == (PassSampleCount(colors, views), ResolveReferences(colors))
  {
    var samples := CheckSamples(colors, views, sampleLimit);
    if samples.Failure? {
      return Failure(samples.error);
    }
    var extent := CheckExtents(colors, depth, views);
    if extent.Failure? {
      return Failure(extent.error);
    }
    var ids := ResolveIds(colors, views);
    if ids.Failure? {
      return Failure(ids.error);
    }
    assert ids.value.0 == ResolveReferences(colors);
    r := Success((samples.value, ids.value.0));
  }

  /** A command encoder: its chain of backend command buffers, whether it is still recording, and its usage tracker. */
  class CommandBuffer {
    var raw: seq<seq<Command>>
    var isRecording: bool
    var trackers: Track.TrackerSet

    /** `device_create_command_encoder`: one command buffer, begun and empty, and nothing tracked. */
    constructor ()
      ensures raw == [[]] && isRecording && trackers == Track.EMPTY
    {
      raw := [[]];
      isRecording := true;
      trackers := Track.EMPTY;
    }

    /**
     * `command_encoder_begin_compute_pass`: the pass records on into the last command
     * buffer, which it takes, and takes over the encoder's trackers, leaving them empty.
     * Without a command buffer the source panics.
     */
    method BeginComputePass() returns (r: Result<Compute.ComputePass, CommandError>)
      modifies this
      ensures old(raw) == [] ==> r == Failure(NoCommandBuffer) && raw == old(raw) && trackers == old(trackers)
      ensures old(raw) != [] ==>
        && r.Success? && fresh(r.value) && fresh(r.value.binder) && r.value.Valid()
        && r.value.commands == old(raw)[|old(raw)| - 1] && r.value.trackers == old(trackers)
        && raw == old(raw)[..|old(raw)| - 1] && trackers == Track.EMPTY
      ensures isRecording == old(isRecording)
    {
      if raw == [] {
        return Failure(NoCommandBuffer);
      }
      var last := raw[|raw| - 1];
      raw := raw[..|raw| - 1];
      var pass := new Compute.ComputePass(last, trackers);
      trackers := Track.EMPTY;
      r := Success(pass);
    }

    /**
     * `compute_pass_end_pass`: the pass already inserted its barriers while recording,
     * so its trackers replace the encoder's and its command buffer joins the chain.
     */
    method EndComputePass(pass: Compute.ComputePass)
      modifies this
      ensures trackers == pass.trackers && raw == old(raw) + [pass.commands] && isRecording == old(isRecording)
    {
      trackers := pass.trackers;
      raw := raw + [pass.commands];
    }

    /**
     * `command_encoder_begin_render_pass`: check the attachments' sample counts, then
     * their extents, then that every resolved colour is multisampled; on success the
     * pass records into a new command buffer that begins the backend render pass over
     * the pass's framebuffer.
     */
    method BeginRenderPass(colors: seq<ColorAttachment>, depth: Option<DepthStencilAttachment>,
                           views: map<TextureViewId, ViewInfo>, sampleLimit: bv8)
      returns (r: Result<Render.RenderPass, AttachmentError>)
      requires KnownViews(colors, depth, views)
      ensures r.Success? <==> AttachmentsOk(colors, depth, views, sampleLimit)
      ensures r.Failure? ==> ErrorExplained(colors, depth, views, sampleLimit, r.error)
      ensures r.Success? ==>
        && fresh(r.value) && fresh(r.value.binder) && r.value.Valid()
        && r.value.context == PassContext(colors, depth, views)
        && r.value.sampleCount == PassSampleCount(colors, views)
        && r.value.trackers == Track.EMPTY
        && r.value.commands == [PassCommon.BeginRenderPass(
             FramebufferKey(colors, depth).All(),
             ResolveReferences(colors),
             if depth.Some? then Some(|colors| + |Resolves(colors)|) else None,
             ClearValues(colors, depth))]
    {
      var checked := CheckAttachments(colors, depth, views, sampleLimit);
      if checked.Failure? {
        return Failure(checked.error);
      }
      var (sampleCount, resolveIds) := checked.value;
      var begin := PassCommon.BeginRenderPass(FramebufferKey(colors, depth).All(), resolveIds,
        if depth.Some? then Some(|colors| + |Resolves(colors)|) else None, ClearValues(colors, depth));
      var pass := new Render.RenderPass([begin], PassContext(colors, depth, views), sampleCount);
      r := Success(pass);
    }

    /**
     * `render_pass_end_pass`: the pass's command buffer ends the render pass. When the
     * encoder has a command buffer, the barriers the pass's first usages need are
     * recorded at its end and the pass's usages replace the encoder's; otherwise they
     * are merged in. The pass's command buffer then joins the chain.
     */
    method EndRenderPass(pass: Render.RenderPass)
      modifies this
      ensures old(raw) != [] ==>
        var merged := Track.MergeReplace(old(trackers), pass.trackers);
        && trackers == merged.0
        && raw == old(raw)[..|old(raw)| - 1] + [old(raw)[|old(raw)| - 1] + [PipelineBarrier(merged.1)]] + [pass.commands + [PassCommon.EndRenderPass]]
      ensures old(raw) == [] ==>
        trackers == Track.MergeExtend(old(trackers), pass.trackers) && raw == [pass.commands + [PassCommon.EndRenderPass]]
      ensures isRecording == old(isRecording)
    {
      if raw != [] {
        var merged := Track.MergeReplace(trackers, pass.trackers);
        trackers := merged.0;
        raw := raw[..|raw| - 1] + [raw[|raw| - 1] + [PipelineBarrier(merged.1)]];
      } else {
        trackers := Track.MergeExtend(trackers, pass.trackers);
      }
      raw := raw + [pass.commands + [PassCommon.EndRenderPass]];
    }

    /** `command_encoder_finish`: the encoder stops recording; its id now names the command buffer. */
    method Finish()
      modifies this
      ensures !isRecording && raw == old(raw) && trackers == old(trackers)
    {
      isRecording := false;
    }
  }
}
