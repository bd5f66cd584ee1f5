/**
 * The render pass: a single graphics subpass over the declared colour and
 * depth attachments, one dependency on the external subpass whose masks
 * accumulate with each attachment, and one framebuffer per swapchain image.
 */
module RenderPasses {
  import opened Vulkan
  import opened Devices
  import opened SwapChains

  /** An attachment as declared to the builder, in declaration order. */
  datatype AttachmentKind = ColorAttachment(format: nat) | DepthAttachment(format: nat)

  /**
   * The description each kind of attachment gets: both clear on load; the
   * colour attachment is stored and handed to presentation, the depth
   * attachment is discarded and stays in its attachment layout.
   */
  function Describe(kind: AttachmentKind): (d: AttachmentDescription)
    ensures d.format == kind.format && d.samples == SAMPLE_COUNT_1
    ensures d.loadOp == ATTACHMENT_LOAD_OP_CLEAR && d.initialLayout == LAYOUT_UNDEFINED
    ensures d.stencilLoadOp == ATTACHMENT_LOAD_OP_DONT_CARE && d.stencilStoreOp == ATTACHMENT_STORE_OP_DONT_CARE
    ensures kind.ColorAttachment? <==> d.storeOp == ATTACHMENT_STORE_OP_STORE
    ensures kind.ColorAttachment? <==> d.finalLayout == LAYOUT_PRESENT_SRC_KHR
    ensures kind.DepthAttachment? <==> d.finalLayout == LAYOUT_DEPTH_STENCIL_ATTACHMENT_OPTIMAL
  {
    match kind
    case ColorAttachment(format) =>
      AttachmentDescription(format, SAMPLE_COUNT_1, ATTACHMENT_LOAD_OP_CLEAR, ATTACHMENT_STORE_OP_STORE,
                            ATTACHMENT_LOAD_OP_DONT_CARE, ATTACHMENT_STORE_OP_DONT_CARE,
                            LAYOUT_UNDEFINED, LAYOUT_PRESENT_SRC_KHR)
    case DepthAttachment(format) =>
      AttachmentDescription(format, SAMPLE_COUNT_1, ATTACHMENT_LOAD_OP_CLEAR, ATTACHMENT_STORE_OP_DONT_CARE,
                            ATTACHMENT_LOAD_OP_DONT_CARE, ATTACHMENT_STORE_OP_DONT_CARE,
                            LAYOUT_UNDEFINED, LAYOUT_DEPTH_STENCIL_ATTACHMENT_OPTIMAL)
  }

  /** The layout a subpass uses an attachment of this kind in. */
  function ReferenceLayout(color: bool): nat {
    if color then LAYOUT_COLOR_ATTACHMENT_OPTIMAL else LAYOUT_DEPTH_STENCIL_ATTACHMENT_OPTIMAL
  }

  /** The attachment descriptions the declarations produce, in order. */
  function Descriptions(kinds: seq<AttachmentKind>): seq<AttachmentDescription> {
    if |kinds| == 0 then [] else Descriptions(kinds[..|kinds| - 1]) + [Describe(kinds[|kinds| - 1])]
  }

  /**
   * The references of one kind (`color` selects colour or depth) that the
   * declarations produce: each names the index its attachment was given.
   */
  function References(kinds: seq<AttachmentKind>, color: bool): seq<AttachmentReference> {
    if |kinds| == 0 then []
    else
      var last := |kinds| - 1;
      References(kinds[..last], color)
      + (if kinds[last].ColorAttachment? == color then [AttachmentReference(last, ReferenceLayout(color))] else [])
  }

  /** Description `i` is that of declaration `i`. */
  lemma {:induction false} DescriptionsFollowDeclarations(kinds: seq<AttachmentKind>)
    ensures |Descriptions(kinds)| == |kinds|
    ensures forall i :: 0 <= i < |kinds| ==> Descriptions(kinds)[i] == Describe(kinds[i])
  {
    if |kinds| > 0 {
      DescriptionsFollowDeclarations(kinds[..|kinds| - 1]);
    }
  }

  /**
   * Every reference names an attachment of its own kind in the right layout,
   * in increasing attachment order, and every attachment of that kind has
   * its reference.
   */
  lemma {:induction false} ReferencesMatchDeclarations(kinds: seq<AttachmentKind>, color: bool)
    ensures var refs := References(kinds, color);
            && (forall r :: r in refs ==>
                  && r.attachment < |kinds|
                  && kinds[r.attachment].ColorAttachment? == color
                  && r.layout == ReferenceLayout(color))
            && (forall i, j :: 0 <= i < j < |refs| ==> refs[i].attachment < refs[j].attachment)
            && (forall a :: 0 <= a < |kinds| && kinds[a].ColorAttachment? == color ==>
                  AttachmentReference(a, ReferenceLayout(color)) in refs)
  {
    if |kinds| > 0 {
      var last := |kinds| - 1;
      var prefix := kinds[..last];
      ReferencesMatchDeclarations(prefix, color);
      assert forall a :: 0 <= a < last ==> kinds[a] == prefix[a];
    }
  }

  /** Each declaration yields exactly one reference, colour or depth. */
  lemma {:induction false} OneReferencePerAttachment(kinds: seq<AttachmentKind>)
    ensures |References(kinds, true)| + |References(kinds, false)| == |kinds|
  {
    if |kinds| > 0 {
      OneReferencePerAttachment(kinds[..|kinds| - 1]);
    }
  }

  /** The stage bit and destination access bit each kind of attachment contributes. */
  function StageBit(kind: AttachmentKind): Flags {
    if kind.ColorAttachment? then PIPELINE_STAGE_COLOR_ATTACHMENT_OUTPUT else PIPELINE_STAGE_EARLY_FRAGMENT_TESTS
  }

  function AccessBit(kind: AttachmentKind): Flags {
    if kind.ColorAttachment? then ACCESS_COLOR_ATTACHMENT_WRITE else ACCESS_DEPTH_STENCIL_ATTACHMENT_WRITE
  }

  /** The dependency with `stage` OR-ed into both stage masks and `access` into the destination access mask. */
  function WithBits(dependency: SubpassDependency, stage: Flags, access: Flags): SubpassDependency {
    dependency.(srcStageMask := dependency.srcStageMask | stage,
                dstStageMask := dependency.dstStageMask | stage,
                dstAccessMask := dependency.dstAccessMask | access)
  }

  /** The stage mask after the declarations, OR-ed in declaration order from 0. */
  function StageMaskOf(kinds: seq<AttachmentKind>): Flags {
    if |kinds| == 0 then 0 else StageMaskOf(kinds[..|kinds| - 1]) | StageBit(kinds[|kinds| - 1])
  }

  /** The destination access mask after the declarations. */
  function AccessMaskOf(kinds: seq<AttachmentKind>): Flags {
    if |kinds| == 0 then 0 else AccessMaskOf(kinds[..|kinds| - 1]) | AccessBit(kinds[|kinds| - 1])
  }

  predicate HasColor(kinds: seq<AttachmentKind>) {
    exists i :: 0 <= i < |kinds| && kinds[i].ColorAttachment?
  }

  predicate HasDepth(kinds: seq<AttachmentKind>) {
    exists i :: 0 <= i < |kinds| && kinds[i].DepthAttachment?
  }

  /**
   * The accumulated masks depend only on which kinds of attachment were
   * declared at least once.
   */
  lemma {:induction false} MasksDependOnKindsOnly(kinds: seq<AttachmentKind>)
    ensures StageMaskOf(kinds) ==
              (if HasColor(kinds) then PIPELINE_STAGE_COLOR_ATTACHMENT_OUTPUT else 0)
              | (if HasDepth(kinds) then PIPELINE_STAGE_EARLY_FRAGMENT_TESTS else 0)
    ensures AccessMaskOf(kinds) ==
              (if HasColor(kinds) then ACCESS_COLOR_ATTACHMENT_WRITE else 0)
              | (if HasDepth(kinds) then ACCESS_DEPTH_STENCIL_ATTACHMENT_WRITE else 0)
  {
    if |kinds| > 0 {
      var prefix := kinds[..|kinds| - 1];
      MasksDependOnKindsOnly(prefix);
      assert kinds == prefix + [kinds[|kinds| - 1]];
      assert HasColor(kinds) <==> HasColor(prefix) || kinds[|kinds| - 1].ColorAttachment? by {
        if HasColor(prefix) {
          var i :| 0 <= i < |prefix| && prefix[i].ColorAttachment?;
          assert kinds[i] == prefix[i];
        }
        if HasColor(kinds) && !kinds[|kinds| - 1].ColorAttachment? {
          var i :| 0 <= i < |kinds| && kinds[i].ColorAttachment?;
          assert prefix[i] == kinds[i];
        }
      }
      assert HasDepth(kinds) <==> HasDepth(prefix) || kinds[|kinds| - 1].DepthAttachment? by {
        if HasDepth(prefix) {
          var i :| 0 <= i < |prefix| && prefix[i].DepthAttachment?;
          assert kinds[i] == prefix[i];
        }
        if HasDepth(kinds) && !kinds[|kinds| - 1].DepthAttachment? {
          var i :| 0 <= i < |kinds| && kinds[i].DepthAttachment?;
          assert prefix[i] == kinds[i];
        }
      }
    }
  }

  /** Declaring the same attachments in any order gives the same dependency masks. */
  lemma MasksIndependentOfOrder(a: seq<AttachmentKind>, b: seq<AttachmentKind>)
    requires multiset(a) == multiset(b)
    ensures StageMaskOf(a) == StageMaskOf(b) && AccessMaskOf(a) == AccessMaskOf(b)
  {
    MasksDependOnKindsOnly(a);
    MasksDependOnKindsOnly(b);
    SameKindsPresent(a, b);
    SameKindsPresent(b, a);
  }

  lemma SameKindsPresent(a: seq<AttachmentKind>, b: seq<AttachmentKind>)
    requires multiset(a) == multiset(b)
    ensures HasColor(a) ==> HasColor(b)
    ensures HasDepth(a) ==> HasDepth(b)
  {
    if HasColor(a) {
      var i :| 0 <= i < |a| && a[i].ColorAttachment?;
      assert a[i] in multiset(b);
      var j :| 0 <= j < |b| && b[j] == a[i];
    }
    if HasDepth(a) {
      var i :| 0 <= i < |a| && a[i].DepthAttachment?;
      assert a[i] in multiset(b);
      var j :| 0 <= j < |b| && b[j] == a[i];
    }
  }

  /** Declaring another attachment of a kind already declared leaves the masks unchanged. */
  lemma RepeatedKindKeepsMasks(kinds: seq<AttachmentKind>, i: nat, format: nat)
    requires i < |kinds|
    ensures var again := if kinds[i].ColorAttachment? then ColorAttachment(format) else DepthAttachment(format);
            StageMaskOf(kinds + [again]) == StageMaskOf(kinds) && AccessMaskOf(kinds + [again]) == AccessMaskOf(kinds)
  {
    var again := if kinds[i].ColorAttachment? then ColorAttachment(format) else DepthAttachment(format);
    assert (kinds + [again])[..|kinds|] == kinds;
    MasksDependOnKindsOnly(kinds);
  }

  /** One more declaration appends one description and at most one reference of each kind. */
  lemma AppendDeclaration(kinds: seq<AttachmentKind>, kind: AttachmentKind)
    ensures |Descriptions(kinds)| == |kinds|
    ensures Descriptions(kinds + [kind]) == Descriptions(kinds) + [Describe(kind)]
    ensures forall color :: References(kinds + [kind], color) == References(kinds, color) + ReferenceTo(|kinds|, kind, color)
  {
    DescriptionsFollowDeclarations(kinds);
    assert (kinds + [kind])[..|kinds|] == kinds;
  }

  /** One more declaration ORs its bits into the masks. */
  lemma AppendDeclarationMasks(kinds: seq<AttachmentKind>, kind: AttachmentKind)
    ensures StageMaskOf(kinds + [kind]) == StageMaskOf(kinds) | StageBit(kind)
    ensures AccessMaskOf(kinds + [kind]) == AccessMaskOf(kinds) | AccessBit(kind)
  {
    assert (kinds + [kind])[..|kinds|] == kinds;
  }

  /** The builder's lists are those the declarations produce. */
  ghost predicate ListsAccumulate(declared: seq<AttachmentKind>, attachments: seq<AttachmentDescription>,
                                  colorReferences: seq<AttachmentReference>, depthReferences: seq<AttachmentReference>)
  {
    && attachments == Descriptions(declared)
    && colorReferences == References(declared, true)
    && depthReferences == References(declared, false)
  }

  /** The dependency's accumulated masks are those the declarations produce. */
  ghost predicate MasksAccumulate(declared: seq<AttachmentKind>, dependency: SubpassDependency) {
    && dependency.srcStageMask == StageMaskOf(declared)
    && dependency.dstStageMask == StageMaskOf(declared)
    && dependency.dstAccessMask == AccessMaskOf(declared)
  }

  /** The reference an attachment added at `index` gets, in the list of its own kind. */
  function ReferenceTo(index: nat, kind: AttachmentKind, color: bool): seq<AttachmentReference> {
    if kind.ColorAttachment? == color then [AttachmentReference(index, ReferenceLayout(color))] else []
  }

  /** Adding an attachment the way the builder does keeps its lists in step with the declarations. */
  lemma AddKeepsLists(declared: seq<AttachmentKind>, attachments: seq<AttachmentDescription>,
                      colorReferences: seq<AttachmentReference>, depthReferences: seq<AttachmentReference>,
                      kind: AttachmentKind)
    requires ListsAccumulate(declared, attachments, colorReferences, depthReferences)
    ensures ListsAccumulate(declared + [kind], attachments + [Describe(kind)],
                            colorReferences + ReferenceTo(|attachments|, kind, true),
                            depthReferences + ReferenceTo(|attachments|, kind, false))
  {
    AppendDeclaration(declared, kind);
  }

  /** ... and its masks. */
  lemma AddKeepsMasks(declared: seq<AttachmentKind>, dependency: SubpassDependency, kind: AttachmentKind)
    requires dependency.srcStageMask == StageMaskOf(declared)
    requires dependency.dstStageMask == StageMaskOf(declared)
    requires dependency.dstAccessMask == AccessMaskOf(declared)
    ensures WithBits(dependency, StageBit(kind), AccessBit(kind)).srcStageMask == StageMaskOf(declared + [kind])
    ensures WithBits(dependency, StageBit(kind), AccessBit(kind)).dstStageMask == StageMaskOf(declared + [kind])
    ensures WithBits(dependency, StageBit(kind), AccessBit(kind)).dstAccessMask == AccessMaskOf(declared + [kind])
  {
    AppendDeclarationMasks(declared, kind);
  }

  /** The render pass product: its handle and one framebuffer per swapchain image. */
  class RenderPass {
    var device: Device?
    var handle: Handle
    var framebuffers: seq<Handle>

    constructor ()
      ensures device == null && handle == NULL_HANDLE && framebuffers == []
    {
      device := null;
      handle := NULL_HANDLE;
      framebuffers := [];
    }

    /** getFramebuffer: defined only for an index below the framebuffer count. */
    function GetFramebuffer(index: nat): (framebuffer: Handle)
      reads this
      requires index < |framebuffers|
      ensures framebuffer == framebuffers[index]   // the framebuffer of swapchain image `index`
    {
      framebuffers[index]
    }

    /**
     * The destructor: nothing when the device is gone; otherwise every
     * framebuffer in order, then the render pass.
     */
    method Destroy(drv: Driver)
      requires drv.Valid()
      modifies drv
      ensures drv.Valid()
      ensures (device == null || !device.alive) ==> drv.st == old(drv.st)
      ensures device != null && device.alive ==>
                drv.st == old(drv.st).(live := old(drv.st.live) - (set h | h in framebuffers) - {handle},
                                       released := old(drv.st.released) + framebuffers + [handle])
    {
      if device == null || !device.alive {
        return;
      }
      drv.ReleaseInOrder(framebuffers);
      drv.Release(handle);
    }
  }

  /** What framebuffer `i` is created from: image view `i` and the shared depth view, at the extent, one layer. */
  function FramebufferFor(renderPass: Handle, views: seq<Handle>, depthView: Handle, extent: Extent2D, i: nat): CreateInfo
    requires i < |views|
  {
    FramebufferInfo(renderPass, [views[i], depthView], extent.width, extent.height, 1)
  }

  /**
   * Framebuffer `i` of a render pass built over `views`: when its creation
   * succeeded, a fresh live framebuffer created from `FramebufferFor`; when
   * it failed, the null handle.
   */
  ghost predicate FramebuffersFor(before: DriverState, after: DriverState, renderPass: Handle, views: seq<Handle>,
                                  depthView: Handle, extent: Extent2D, oks: seq<bool>, framebuffers: seq<Handle>)
  {
    && |framebuffers| == |views| == |oks|
    && (forall i :: 0 <= i < |views| ==> (oks[i] <==> framebuffers[i] != NULL_HANDLE))
    && (forall i :: 0 <= i < |views| && oks[i] ==>
          && before.nextHandle <= framebuffers[i]
          && framebuffers[i] in after.live
          && framebuffers[i] in after.created
          && after.created[framebuffers[i]] == FramebufferFor(renderPass, views, depthView, extent, i))
    && (forall i, j :: 0 <= i < j < |views| && oks[i] && oks[j] ==> framebuffers[i] < framebuffers[j])
  }

  /**
   * The framebuffer loop of build: the list is first sized to the view
   * count (null handles), then each slot is filled in turn; a failure is
   * only logged and leaves its slot null.
   */
  method CreateFramebuffers(drv: Driver, renderPass: Handle, views: seq<Handle>, depthView: Handle,
                            extent: Extent2D, oks: seq<bool>)
    returns (framebuffers: seq<Handle>)
    requires drv.Valid()
    requires |oks| == |views|
    modifies drv
    ensures drv.Valid()
    ensures Extends(old(drv.st), drv.st)
    ensures FramebuffersFor(old(drv.st), drv.st, renderPass, views, depthView, extent, oks, framebuffers)
  {
    framebuffers := seq(|views|, _ => NULL_HANDLE);
    for i := 0 to |views|
      invariant drv.Valid()
      invariant Extends(old(drv.st), drv.st)
      invariant |framebuffers| == |views|
      invariant forall j :: 0 <= j < |views| ==> (j < i && oks[j] <==> framebuffers[j] != NULL_HANDLE)
      invariant forall j :: 0 <= j < i && oks[j] ==>
                  && old(drv.st.nextHandle) <= framebuffers[j] < drv.st.nextHandle
                  && framebuffers[j] in drv.st.live
                  && framebuffers[j] in drv.st.created
                  && drv.st.created[framebuffers[j]] == FramebufferFor(renderPass, views, depthView, extent, j)
      invariant forall j, k :: 0 <= j < k < i && oks[j] && oks[k] ==> framebuffers[j] < framebuffers[k]
    {
      var framebuffer := drv.Create(FramebufferFor(renderPass, views, depthView, extent, i), oks[i]);
      framebuffers := framebuffers[i := framebuffer];
    }
  }

  /**
   * RenderPassBuilder. The ghost `declared` lists the attachments in the
   * order they were added; every list and mask the builder holds is a
   * function of it.
   */
  class RenderPassBuilder {
    var product: RenderPass?
    var attachments: seq<AttachmentDescription>
    var colorReferences: seq<AttachmentReference>
    var depthReferences: seq<AttachmentReference>
    var subpass: SubpassDescription
    var dependency: SubpassDependency
    var device: Device?
    var swapchain: SwapChain?
    ghost var declared: seq<AttachmentKind>

    /** The lists and the accumulated masks are those the declarations produce. */
    ghost predicate Accumulated()
      reads this
    {
      ListsAccumulate(declared, attachments, colorReferences, depthReferences) && MasksAccumulate(declared, dependency)
    }

    ghost predicate Valid()
      reads this
    {
      && Accumulated()
      && subpass.pipelineBindPoint == PIPELINE_BIND_POINT_GRAPHICS
      && dependency.srcSubpass == SUBPASS_EXTERNAL && dependency.dstSubpass == 0
      && dependency.srcAccessMask == ACCESS_NONE
    }

    /** Both structures start zeroed; restart then sets the bind point and the fixed dependency fields. */
    constructor ()
      ensures Valid() && declared == [] && fresh(product)
      ensures product.device == null && product.handle == NULL_HANDLE && product.framebuffers == []
      ensures dependency == SubpassDependency(SUBPASS_EXTERNAL, 0, 0, 0, ACCESS_NONE, 0)
      ensures device == null && swapchain == null
    {
      attachments := [];
      colorReferences := [];
      depthReferences := [];
      subpass := SubpassDescription(0, [], None);
      dependency := SubpassDependency(0, 0, 0, 0, 0, 0);
      device := null;
      swapchain := null;
      declared := [];
      product := new RenderPass();
      new;
      Restart();
    }

    /**
     * A new product; the fixed subpass and dependency fields are set again,
     * while the attachment lists and the accumulated masks are kept.
     */
    method Restart()
      modifies this`product, this`subpass, this`dependency
      ensures fresh(product)
      ensures product.device == null && product.handle == NULL_HANDLE && product.framebuffers == []
      ensures subpass == old(subpass).(pipelineBindPoint := PIPELINE_BIND_POINT_GRAPHICS)
      ensures dependency == old(dependency).(srcSubpass := SUBPASS_EXTERNAL, dstSubpass := 0, srcAccessMask := ACCESS_NONE)
      ensures Accumulated() == old(Accumulated())
      ensures Accumulated() ==> Valid()
    {
      product := new RenderPass();
      subpass := subpass.(pipelineBindPoint := PIPELINE_BIND_POINT_GRAPHICS);
      dependency := dependency.(srcSubpass := SUBPASS_EXTERNAL, dstSubpass := 0, srcAccessMask := ACCESS_NONE);
    }

    /**
     * One colour attachment: its reference names the index it is given, and
     * the colour-output stage and colour-write access join the masks.
     */
    method AddColorAttachment(format: nat)
      requires Valid()
      modifies this`attachments, this`colorReferences, this`dependency, this`declared
      ensures Valid() && declared == old(declared) + [ColorAttachment(format)]
      ensures attachments == old(attachments) + [AttachmentDescription(format, SAMPLE_COUNT_1,
                ATTACHMENT_LOAD_OP_CLEAR, ATTACHMENT_STORE_OP_STORE, ATTACHMENT_LOAD_OP_DONT_CARE,
                ATTACHMENT_STORE_OP_DONT_CARE, LAYOUT_UNDEFINED, LAYOUT_PRESENT_SRC_KHR)]
      ensures colorReferences == old(colorReferences) + [AttachmentReference(|old(attachments)|, LAYOUT_COLOR_ATTACHMENT_OPTIMAL)]
      ensures dependency == WithBits(old(dependency), PIPELINE_STAGE_COLOR_ATTACHMENT_OUTPUT, ACCESS_COLOR_ATTACHMENT_WRITE)
    {
      var kind := ColorAttachment(format);
      AddKeepsLists(declared, attachments, colorReferences, depthReferences, kind);
      AddKeepsMasks(declared, dependency, kind);
      colorReferences := colorReferences + ReferenceTo(|attachments|, kind, true);
      attachments := attachments + [Describe(kind)];
      dependency := WithBits(dependency, StageBit(kind), AccessBit(kind));
      declared := declared + [kind];
    }

    /**
     * One depth attachment: its reference names the index it is given, and
     * the early-fragment-tests stage and depth-write access join the masks.
     */
    method AddDepthAttachment(format: nat)
      requires Valid()
      modifies this`attachments, this`depthReferences, this`dependency, this`declared
      ensures Valid() && declared == old(declared) + [DepthAttachment(format)]
      ensures attachments == old(attachments) + [AttachmentDescription(format, SAMPLE_COUNT_1,
                ATTACHMENT_LOAD_OP_CLEAR, ATTACHMENT_STORE_OP_DONT_CARE, ATTACHMENT_LOAD_OP_DONT_CARE,
                ATTACHMENT_STORE_OP_DONT_CARE, LAYOUT_UNDEFINED, LAYOUT_DEPTH_STENCIL_ATTACHMENT_OPTIMAL)]
      ensures depthReferences == old(depthReferences) + [AttachmentReference(|old(attachments)|, LAYOUT_DEPTH_STENCIL_ATTACHMENT_OPTIMAL)]
      ensures dependency == WithBits(old(dependency), PIPELINE_STAGE_EARLY_FRAGMENT_TESTS, ACCESS_DEPTH_STENCIL_ATTACHMENT_WRITE)
    {
      var kind := DepthAttachment(format);
      AddKeepsLists(declared, attachments, colorReferences, depthReferences, kind);
      AddKeepsMasks(declared, dependency, kind);
      depthReferences := depthReferences + ReferenceTo(|attachments|, kind, false);
      attachments := attachments + [Describe(kind)];
      dependency := WithBits(dependency, StageBit(kind), AccessBit(kind));
      declared := declared + [kind];
    }

    /**
     * The device goes to the builder and then to the product; after a build
     * has handed the product over, the product write dereferences null.
     */
    method SetDevice(device: Device?) returns (outcome: Outcome<()>)
      modifies this`device, product
      ensures product != null ==> unchanged(product`handle, product`framebuffers)
      ensures this.device == device
      ensures product == null ==> outcome == Aborted(NullDereference)   // m_product is dereferenced
      ensures product != null ==> outcome == Returned(()) && product.device == device
    {
      this.device := device;
      if product == null {
        return Aborted(NullDereference);
      }
      product.device := device;
      outcome := Returned(());
    }

    method SetSwapChain(swapchain: SwapChain?)
      modifies this`swapchain
      ensures this.swapchain == swapchain
    {
      this.swapchain := swapchain;
    }

    /**
     * build(). `createOk` is the result of vkCreateRenderPass and
     * `framebufferOks[i]` that of vkCreateFramebuffer for image view i. The
     * subpass takes the colour references and the first depth reference, if
     * any. The product is handed over without a restart, so a second build
     * dereferences a null product once the render pass exists.
     */
    method Build(drv: Driver, createOk: bool, framebufferOks: seq<bool>) returns (outcome: Outcome<RenderPass?>)
      requires drv.Valid() && Valid()
      requires device != null && device.alive && swapchain != null   // the two asserts
      requires |framebufferOks| == |swapchain.imageViews|
      modifies this`subpass, this`product, product, drv
      ensures drv.Valid() && Valid()
      ensures subpass == SubpassDescription(PIPELINE_BIND_POINT_GRAPHICS, colorReferences,
                                            if |depthReferences| > 0 then Some(depthReferences[0]) else None)
      ensures Extends(old(drv.st), drv.st)
      // render pass creation failed: nothing was created
      ensures !createOk ==> outcome == Returned(null) && drv.st == old(drv.st) && product == old(product)
      // otherwise the render pass has one subpass and one dependency
      ensures createOk ==>
                && old(drv.st.nextHandle) in drv.st.live
                && old(drv.st.nextHandle) in drv.st.created
                && drv.st.created[old(drv.st.nextHandle)] == RenderPassInfo(attachments, [subpass], [dependency])
      ensures createOk && old(product) == null ==> outcome == Aborted(NullDereference)
      ensures createOk && old(product) != null ==>
                && outcome == Returned(old(product)) && product == null
                && old(product).handle == old(drv.st.nextHandle)
                && FramebuffersFor(old(drv.st), drv.st, old(product).handle, swapchain.imageViews,
                                   swapchain.depthImageView, swapchain.extent, framebufferOks, old(product).framebuffers)
    {
      subpass := SubpassDescription(subpass.pipelineBindPoint, colorReferences,
                                    if |depthReferences| > 0 then Some(depthReferences[0]) else None);
      var handle := drv.Create(RenderPassInfo(attachments, [subpass], [dependency]), createOk);
      if !createOk {
        return Returned(null);
      }
      if product == null {
        return Aborted(NullDereference);
      }
      ghost var created := drv.st;
      product.handle := handle;
      product.framebuffers := CreateFramebuffers(drv, handle, swapchain.imageViews, swapchain.depthImageView,
                                                 swapchain.extent, framebufferOks);
      assert drv.st.created[handle] == created.created[handle];
      outcome := Returned(product);
      product := null;
    }
  }
}
