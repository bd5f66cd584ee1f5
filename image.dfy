/**
 * Images and image-layout transitions: the Image product (creation with
 * bound memory, teardown, layout transitions, buffer-to-image copies and
 * views), the ImageBuilder setters, and the ImageLayoutTransition builder
 * with its director's table of access and stage masks.
 */
module Images {
  import opened Vulkan
  import opened Devices

  // ---------------------------------------------------------------------
  // Layout transitions
  // ---------------------------------------------------------------------

  /** One image memory barrier and the stages it separates. */
  datatype ImageLayoutTransition = ImageLayoutTransition(barrier: ImageMemoryBarrier, srcStageMask: Flags, dstStageMask: Flags)

  /**
   * The product `restart()` makes: a value-initialised transition whose
   * barrier has its structure type, ignores queue-family ownership and
   * covers mip level 0 and array layer 0 only.
   */
  const FreshTransition: ImageLayoutTransition :=
    ImageLayoutTransition(
      ZeroBarrier.(sType := STRUCTURE_TYPE_IMAGE_MEMORY_BARRIER,
                   srcQueueFamilyIndex := QUEUE_FAMILY_IGNORED,
                   dstQueueFamilyIndex := QUEUE_FAMILY_IGNORED,
                   subresourceRange := SubresourceRange(0, 0, 1, 0, 1)),
      0, 0)

  /** The access and stage masks a director specialisation sets. */
  datatype AccessAndStages = AccessAndStages(srcAccessMask: Flags, dstAccessMask: Flags, srcStageMask: Flags, dstStageMask: Flags)

  /**
   * The specialised transitions of ImageLayoutTransitionDirector; any other
   * pair of layouts uses the generic template, which sets no mask.
   */
  function SpecialisedMasks(oldLayout: nat, newLayout: nat): Option<AccessAndStages>
  {
    if oldLayout == LAYOUT_UNDEFINED && newLayout == LAYOUT_DEPTH_STENCIL_ATTACHMENT_OPTIMAL then
      Some(AccessAndStages(ACCESS_NONE, ACCESS_DEPTH_STENCIL_ATTACHMENT_READ | ACCESS_DEPTH_STENCIL_ATTACHMENT_WRITE,
                           PIPELINE_STAGE_TOP_OF_PIPE, PIPELINE_STAGE_EARLY_FRAGMENT_TESTS))
    else if oldLayout == LAYOUT_UNDEFINED && newLayout == LAYOUT_TRANSFER_DST_OPTIMAL then
      Some(AccessAndStages(ACCESS_NONE, ACCESS_TRANSFER_WRITE, PIPELINE_STAGE_TOP_OF_PIPE, PIPELINE_STAGE_TRANSFER))
    else if oldLayout == LAYOUT_TRANSFER_DST_OPTIMAL && newLayout == LAYOUT_SHADER_READ_ONLY_OPTIMAL then
      Some(AccessAndStages(ACCESS_TRANSFER_WRITE, ACCESS_SHADER_READ, PIPELINE_STAGE_TRANSFER, PIPELINE_STAGE_FRAGMENT_SHADER))
    else
      None
  }

  const SHADER_STAGES: Flags := PIPELINE_STAGE_VERTEX_SHADER | PIPELINE_STAGE_FRAGMENT_SHADER | PIPELINE_STAGE_COMPUTE_SHADER
  const FRAGMENT_TEST_STAGES: Flags := PIPELINE_STAGE_EARLY_FRAGMENT_TESTS | PIPELINE_STAGE_LATE_FRAGMENT_TESTS
  const KNOWN_ACCESSES: Flags :=
    ACCESS_SHADER_READ | ACCESS_COLOR_ATTACHMENT_READ | ACCESS_COLOR_ATTACHMENT_WRITE
    | ACCESS_DEPTH_STENCIL_ATTACHMENT_READ | ACCESS_DEPTH_STENCIL_ATTACHMENT_WRITE
    | ACCESS_TRANSFER_READ | ACCESS_TRANSFER_WRITE

  /**
   * The "supported access types" rule of section 7.1.3 of the Vulkan 1.3
   * specification, restricted to the access kinds the program uses: every
   * access in the mask is performed by at least one of the stages.
   */
  predicate AccessSupported(access: Flags, stages: Flags)
  {
    && access & !KNOWN_ACCESSES == 0
    && (access & ACCESS_SHADER_READ != 0 ==> stages & SHADER_STAGES != 0)
    && (access & (ACCESS_COLOR_ATTACHMENT_READ | ACCESS_COLOR_ATTACHMENT_WRITE) != 0 ==>
          stages & PIPELINE_STAGE_COLOR_ATTACHMENT_OUTPUT != 0)
    && (access & (ACCESS_DEPTH_STENCIL_ATTACHMENT_READ | ACCESS_DEPTH_STENCIL_ATTACHMENT_WRITE) != 0 ==>
          stages & FRAGMENT_TEST_STAGES != 0)
    && (access & (ACCESS_TRANSFER_READ | ACCESS_TRANSFER_WRITE) != 0 ==> stages & PIPELINE_STAGE_TRANSFER != 0)
  }

  /** Every specialised transition names, on each side, only accesses its stages perform. */
  lemma SpecialisedMasksAreSupported(oldLayout: nat, newLayout: nat)
    requires SpecialisedMasks(oldLayout, newLayout).Some?
    ensures var m := SpecialisedMasks(oldLayout, newLayout).value;
      AccessSupported(m.srcAccessMask, m.srcStageMask) && AccessSupported(m.dstAccessMask, m.dstStageMask)
  {
  }

  /**
   * The upload transition (UNDEFINED to TRANSFER_DST) ends with the accesses
   * and stages the read transition (TRANSFER_DST to SHADER_READ_ONLY) waits
   * for, so a copy between them is made visible to the fragment shader.
   */
  lemma UploadThenReadChains()
    ensures SpecialisedMasks(LAYOUT_UNDEFINED, LAYOUT_TRANSFER_DST_OPTIMAL).Some?
    ensures SpecialisedMasks(LAYOUT_TRANSFER_DST_OPTIMAL, LAYOUT_SHADER_READ_ONLY_OPTIMAL).Some?
    ensures var upload := SpecialisedMasks(LAYOUT_UNDEFINED, LAYOUT_TRANSFER_DST_OPTIMAL).value;
            var read := SpecialisedMasks(LAYOUT_TRANSFER_DST_OPTIMAL, LAYOUT_SHADER_READ_ONLY_OPTIMAL).value;
            upload.dstAccessMask == read.srcAccessMask && upload.dstStageMask == read.srcStageMask
  {
  }

  /** ImageLayoutTransitionBuilder: every setter writes one field of the product. */
  class ImageLayoutTransitionBuilder {
    var product: ImageLayoutTransition

    constructor ()
      ensures product == FreshTransition
    {
      product := FreshTransition;
    }

    method Restart()
      modifies this
      ensures product == FreshTransition
    {
      product := FreshTransition;
    }

    method SetSrcAccessMask(a: Flags)
      modifies this
      ensures product == old(product).(barrier := old(product.barrier).(srcAccessMask := a))
    {
      product := product.(barrier := product.barrier.(srcAccessMask := a));
    }

    method SetDstAccessMask(a: Flags)
      modifies this
      ensures product == old(product).(barrier := old(product.barrier).(dstAccessMask := a))
    {
      product := product.(barrier := product.barrier.(dstAccessMask := a));
    }

    method SetOldLayout(a: nat)
      modifies this
      ensures product == old(product).(barrier := old(product.barrier).(oldLayout := a))
    {
      product := product.(barrier := product.barrier.(oldLayout := a));
    }

    method SetNewLayout(a: nat)
      modifies this
      ensures product == old(product).(barrier := old(product.barrier).(newLayout := a))
    {
      product := product.(barrier := product.barrier.(newLayout := a));
    }

    method SetSrcQueueFamilyIndex(a: nat)
      modifies this
      ensures product == old(product).(barrier := old(product.barrier).(srcQueueFamilyIndex := a))
    {
      product := product.(barrier := product.barrier.(srcQueueFamilyIndex := a));
    }

    method SetDstQueueFamilyIndex(a: nat)
      modifies this
      ensures product == old(product).(barrier := old(product.barrier).(dstQueueFamilyIndex := a))
    {
      product := product.(barrier := product.barrier.(dstQueueFamilyIndex := a));
    }

    /** The barrier takes both the image's handle and its aspect flags. */
    method SetImage(a: Image)
      modifies this
      ensures product == old(product).(barrier := old(product.barrier).(
                image := a.handle,
                subresourceRange := old(product.barrier.subresourceRange).(aspectMask := a.aspectFlags)))
    {
      product := product.(barrier := product.barrier.(
        image := a.handle,
        subresourceRange := product.barrier.subresourceRange.(aspectMask := a.aspectFlags)));
    }

    method SetBaseMipLevel(a: nat)
      modifies this
      ensures product == old(product).(barrier := old(product.barrier).(
                subresourceRange := old(product.barrier.subresourceRange).(baseMipLevel := a)))
    {
      product := product.(barrier := product.barrier.(subresourceRange := product.barrier.subresourceRange.(baseMipLevel := a)));
    }

    method SetLevelCount(a: nat)
      modifies this
      ensures product == old(product).(barrier := old(product.barrier).(
                subresourceRange := old(product.barrier.subresourceRange).(levelCount := a)))
    {
      product := product.(barrier := product.barrier.(subresourceRange := product.barrier.subresourceRange.(levelCount := a)));
    }

    method SetBaseArrayLayer(a: nat)
      modifies this
      ensures product == old(product).(barrier := old(product.barrier).(
                subresourceRange := old(product.barrier.subresourceRange).(baseArrayLayer := a)))
    {
      product := product.(barrier := product.barrier.(subresourceRange := product.barrier.subresourceRange.(baseArrayLayer := a)));
    }

    method SetLayerCount(a: nat)
      modifies this
      ensures product == old(product).(barrier := old(product.barrier).(
                subresourceRange := old(product.barrier.subresourceRange).(layerCount := a)))
    {
      product := product.(barrier := product.barrier.(subresourceRange := product.barrier.subresourceRange.(layerCount := a)));
    }

    method SetSrcStageMask(a: Flags)
      modifies this
      ensures product == old(product).(srcStageMask := a)
    {
      product := product.(srcStageMask := a);
    }

    method SetDstStageMask(a: Flags)
      modifies this
      ensures product == old(product).(dstStageMask := a)
    {
      product := product.(dstStageMask := a);
    }

    /**
     * Hands over the configured transition (an image must have been set) and
     * restarts, so nothing of this configuration reaches the next product.
     */
    method Build() returns (transition: ImageLayoutTransition)
      requires product.barrier.image != NULL_HANDLE
      modifies this
      ensures transition == old(product)
      ensures product == FreshTransition
    {
      transition := product;
      Restart();
    }
  }

  /**
   * ImageLayoutTransitionDirector::createBuilder<TFrom, TTo>: both layouts,
   * plus the masks of the specialisation when the pair has one.
   */
  method CreateTransitionBuilder(oldLayout: nat, newLayout: nat, builder: ImageLayoutTransitionBuilder)
    modifies builder
    ensures SpecialisedMasks(oldLayout, newLayout).None? ==>
              builder.product == old(builder.product).(barrier := old(builder.product.barrier).(oldLayout := oldLayout, newLayout := newLayout))
    ensures SpecialisedMasks(oldLayout, newLayout).Some? ==>
              var m := SpecialisedMasks(oldLayout, newLayout).value;
              builder.product == old(builder.product).(
                barrier := old(builder.product.barrier).(oldLayout := oldLayout, newLayout := newLayout,
                                                         srcAccessMask := m.srcAccessMask, dstAccessMask := m.dstAccessMask),
                srcStageMask := m.srcStageMask, dstStageMask := m.dstStageMask)
  {
    builder.SetOldLayout(oldLayout);
    builder.SetNewLayout(newLayout);
    var masks := SpecialisedMasks(oldLayout, newLayout);
    if masks.Some? {
      builder.SetSrcAccessMask(masks.value.srcAccessMask);
      builder.SetDstAccessMask(masks.value.dstAccessMask);
      builder.SetSrcStageMask(masks.value.srcStageMask);
      builder.SetDstStageMask(masks.value.dstStageMask);
    }
  }

  // ---------------------------------------------------------------------
  // Images
  // ---------------------------------------------------------------------

  /** An image and the memory bound to it; `device` is the weak_ptr back to the device. */
  class Image {
    var device: Device?
    var format: nat
    var width: nat
    var height: nat
    var depth: nat
    var aspectFlags: Flags
    var handle: Handle
    var memory: Handle

    /** The builder's product before configuration. */
    constructor ()
      ensures device == null && format == FORMAT_UNDEFINED && width == 0 && height == 0 && depth == 0
      ensures aspectFlags == 0 && handle == NULL_HANDLE && memory == NULL_HANDLE
    {
      device := null;
      format := FORMAT_UNDEFINED;
      width := 0;
      height := 0;
      depth := 0;
      aspectFlags := 0;
      handle := NULL_HANDLE;
      memory := NULL_HANDLE;
    }

    /** The member-initialiser list of the older constructor-style Image. */
    constructor Initialised(device: Device, format: nat, width: nat, height: nat, aspectFlags: Flags)
      ensures this.device == device && this.format == format && this.width == width && this.height == height
      ensures this.aspectFlags == aspectFlags && depth == 0 && handle == NULL_HANDLE && memory == NULL_HANDLE
    {
      this.device := device;
      this.format := format;
      this.width := width;
      this.height := height;
      depth := 0;
      this.aspectFlags := aspectFlags;
      handle := NULL_HANDLE;
      memory := NULL_HANDLE;
    }

    /** The destructor: the memory is freed before the image is destroyed. */
    method Destroy(drv: Driver) returns (outcome: Outcome<()>)
      requires drv.Valid()
      modifies drv
      ensures drv.Valid()
      // the weak_ptr is locked and dereferenced without a check
      ensures !(device != null && device.alive) ==> outcome == Aborted(NullDereference) && drv.st == old(drv.st)
      ensures device != null && device.alive ==>
                && outcome == Returned(())
                && drv.st == old(drv.st).(live := old(drv.st.live) - {memory, handle},
                                          released := old(drv.st.released) + [memory, handle])
    {
      if !(device != null && device.alive) {
        return Aborted(NullDereference);
      }
      outcome := Returned(());
      drv.Release(memory);
      drv.Release(handle);
    }

    /** One one-time submission holding exactly the transition's pipeline barrier. */
    method TransitionImageLayout(drv: Driver, transition: ImageLayoutTransition) returns (outcome: Outcome<()>)
      requires drv.Valid()
      modifies drv
      ensures drv.Valid()
      ensures !(device != null && device.alive) ==> outcome == Aborted(NullDereference) && drv.st == old(drv.st)
      ensures device != null && device.alive ==>
                && outcome == Returned(())
                && drv.st == old(drv.st).(submissions := old(drv.st.submissions) +
                     [[PipelineBarrier(transition.srcStageMask, transition.dstStageMask, transition.barrier)]])
    {
      if !(device != null && device.alive) {
        return Aborted(NullDereference);
      }
      outcome := Returned(());
      device.SubmitOneTime(drv, [PipelineBarrier(transition.srcStageMask, transition.dstStageMask, transition.barrier)]);
    }

    /**
     * One one-time submission copying `buffer` over the whole image: no
     * offsets, the image's width and height at depth 1, its aspect, mip level
     * 0 and one layer, with the image in TRANSFER_DST_OPTIMAL layout.
     */
    method CopyBufferToImage(drv: Driver, buffer: Handle) returns (outcome: Outcome<()>)
      requires drv.Valid()
      modifies drv
      ensures drv.Valid()
      ensures !(device != null && device.alive) ==> outcome == Aborted(NullDereference) && drv.st == old(drv.st)
      ensures device != null && device.alive ==>
                && outcome == Returned(())
                && drv.st == old(drv.st).(submissions := old(drv.st.submissions) +
                     [[Command.CopyBufferToImage(buffer, handle, LAYOUT_TRANSFER_DST_OPTIMAL,
                                                 BufferImageCopy(0, 0, 0, aspectFlags, 0, 0, 1, 0, 0, 0, width, height, 1))]])
    {
      if !(device != null && device.alive) {
        return Aborted(NullDereference);
      }
      outcome := Returned(());
      var region := BufferImageCopy(
        0, 0, 0,                 // buffer offset, row length, image height
        aspectFlags, 0, 0, 1,    // aspect, mip level, base layer, layer count
        0, 0, 0,                 // image offset
        width, height, 1);       // image extent
      device.SubmitOneTime(drv, [Command.CopyBufferToImage(buffer, handle, LAYOUT_TRANSFER_DST_OPTIMAL, region)]);
    }

    /**
     * A 2D view of the whole first level and layer with the image's format
     * and aspect and the identity swizzle. A failure is only reported; the
     * model returns VK_NULL_HANDLE for the view the source leaves unset. An
     * expired device is dereferenced.
     */
    method CreateImageView(drv: Driver, ok: bool) returns (outcome: Outcome<Handle>)
      requires drv.Valid()
      modifies drv
      ensures drv.Valid()
      ensures !(device != null && device.alive) ==> outcome == Aborted(NullDereference) && drv.st == old(drv.st)
      ensures device != null && device.alive && !ok ==> outcome == Returned(NULL_HANDLE) && drv.st == old(drv.st)
      ensures device != null && device.alive && ok ==>
                var view := old(drv.st.nextHandle);
                && outcome == Returned(view) && view in drv.st.live && view !in old(drv.st.live)
                && drv.st == old(drv.st).(nextHandle := view + 1, live := old(drv.st.live) + {view},
                                          created := old(drv.st.created)[view := ImageViewInfo(
                                            handle, IMAGE_VIEW_TYPE_2D, format,
                                            ComponentMapping(COMPONENT_SWIZZLE_R, COMPONENT_SWIZZLE_G, COMPONENT_SWIZZLE_B, COMPONENT_SWIZZLE_A),
                                            SubresourceRange(aspectFlags, 0, 1, 0, 1))])
    {
      if !(device != null && device.alive) {
        return Aborted(NullDereference);
      }
      var components := ComponentMapping(COMPONENT_SWIZZLE_R, COMPONENT_SWIZZLE_G, COMPONENT_SWIZZLE_B, COMPONENT_SWIZZLE_A);
      var view := drv.Create(ImageViewInfo(handle, IMAGE_VIEW_TYPE_2D, format, components, SubresourceRange(aspectFlags, 0, 1, 0, 1)), ok);
      outcome := Returned(view);
    }
  }

  /**
   * The constructor-style Image of the older revision: creates a 2D image
   * with depth 1, one mip level, one layer and one sample, exclusive and
   * initially UNDEFINED; then allocates memory of the required size from the
   * first suitable memory type and binds it at offset 0. A failed creation
   * or allocation only returns early; a memory type that cannot be found
   * throws at `value()`. The device is locked without a check, so an
   * expired one is dereferenced before anything is created.
   */
  method ConstructImage(drv: Driver, device: Device, format: nat, width: nat, height: nat, tiling: nat,
                        usage: Flags, properties: Flags, aspectFlags: Flags,
                        createOk: bool, requirements: MemoryRequirements, allocOk: bool)
    returns (outcome: Outcome<Image>)
    requires drv.Valid()
    modifies drv
    ensures drv.Valid()
    // the weak_ptr is locked and dereferenced without a check
    ensures !device.alive ==> outcome == Aborted(NullDereference) && drv.st == old(drv.st)
    ensures drv.st.released == old(drv.st.released) && drv.st.submissions == old(drv.st.submissions)
    ensures outcome.Returned? ==>
              var image := outcome.value;
              && fresh(image) && image.device == device && image.format == format
              && image.width == width && image.height == height && image.aspectFlags == aspectFlags
    ensures device.alive && !createOk ==> outcome.Returned? && outcome.value.handle == NULL_HANDLE && drv.st == old(drv.st)
    ensures device.alive && createOk ==>
              && old(drv.st.nextHandle) in drv.st.live
              && old(drv.st.nextHandle) in drv.st.created
              && drv.st.created[old(drv.st.nextHandle)] ==
                 ImageInfo(ImageCreateInfo(IMAGE_TYPE_2D, format, width, height, 1, 1, 1, SAMPLE_COUNT_1, tiling, usage,
                                           SHARING_MODE_EXCLUSIVE, LAYOUT_UNDEFINED))
    ensures device.alive && createOk && FirstSuitableMemoryType(device.physical.memoryTypes, requirements.memoryTypeBits, properties, 0).None? ==>
              outcome == Aborted(BadOptionalAccess) && drv.st.nextHandle == old(drv.st.nextHandle) + 1
    ensures createOk && outcome.Returned? ==>
              var memoryType := FirstSuitableMemoryType(device.physical.memoryTypes, requirements.memoryTypeBits, properties, 0);
              && memoryType.Some?
              && outcome.value.handle == old(drv.st.nextHandle)
              && (!allocOk ==> outcome.value.memory == NULL_HANDLE && drv.st.bindings == old(drv.st.bindings)
                               && drv.st.live == old(drv.st.live) + {outcome.value.handle})
              && (allocOk ==> && outcome.value.memory == outcome.value.handle + 1
                              && outcome.value.memory in drv.st.created
                              && drv.st.created[outcome.value.memory] == MemoryInfo(requirements.size, memoryType.value)
                              && drv.st.live == old(drv.st.live) + {outcome.value.handle, outcome.value.memory}
                              && drv.st.bindings == old(drv.st.bindings)[outcome.value.handle := Binding(outcome.value.memory, 0)])
  {
    var image := new Image.Initialised(device, format, width, height, aspectFlags);
    if !device.alive {
      return Aborted(NullDereference);
    }

    var createInfo := ImageCreateInfo(IMAGE_TYPE_2D, format, width, height, 1, 1, 1, SAMPLE_COUNT_1, tiling, usage,
                                      SHARING_MODE_EXCLUSIVE, LAYOUT_UNDEFINED);
    image.handle := drv.Create(ImageInfo(createInfo), createOk);
    if !createOk {
      return Returned(image);
    }

    ghost var created := drv.st;
    var memory := AllocateAndBind(drv, device.physical.memoryTypes, image.handle, requirements, properties, allocOk);
    assert drv.st.created[image.handle] == created.created[image.handle];
    if memory.Aborted? {
      return Aborted(memory.failure);
    }
    image.memory := memory.value;
    outcome := Returned(image);
  }

  /**
   * ImageBuilder: `setDevice` records the device on the builder and the
   * product; format, extent and aspect are recorded on the product only,
   * every other setting on the builder only.
   */
  class ImageBuilder {
    var product: Image
    var device: Device?
    var imageType: nat
    var tiling: nat
    var usage: Flags
    var properties: Flags
    var mipLevels: nat
    var arrayLayers: nat
    var samples: Flags
    var sharingMode: nat
    var initialLayout: nat

    constructor ()
      ensures fresh(product) && product.device == null && product.handle == NULL_HANDLE && product.memory == NULL_HANDLE
      ensures device == null
    {
      product := new Image();
      device := null;
      imageType := 0;
      tiling := 0;
      usage := 0;
      properties := 0;
      mipLevels := 0;
      arrayLayers := 0;
      samples := 0;
      sharingMode := 0;
      initialLayout := 0;
    }

    method SetDevice(a: Device?)
      modifies this`device, product`device
      ensures device == a && product.device == a
    {
      device := a;
      product.device := a;
    }

    method SetImageType(a: nat)
      modifies this`imageType
      ensures imageType == a
    {
      imageType := a;
    }

    method SetFormat(a: nat)
      modifies product`format
      ensures product.format == a
    {
      product.format := a;
    }

    method SetWidth(a: nat)
      modifies product`width
      ensures product.width == a
    {
      product.width := a;
    }

    method SetHeight(a: nat)
      modifies product`height
      ensures product.height == a
    {
      product.height := a;
    }

    method SetDepth(a: nat)
      modifies product`depth
      ensures product.depth == a
    {
      product.depth := a;
    }

    method SetTiling(a: nat)
      modifies this`tiling
      ensures tiling == a
    {
      tiling := a;
    }

    method SetUsage(a: Flags)
      modifies this`usage
      ensures usage == a
    {
      usage := a;
    }

    method SetProperties(a: Flags)
      modifies this`properties
      ensures properties == a
    {
      properties := a;
    }

    method SetMipLevels(a: nat)
      modifies this`mipLevels
      ensures mipLevels == a
    {
      mipLevels := a;
    }

    method SetArrayLayers(a: nat)
      modifies this`arrayLayers
      ensures arrayLayers == a
    {
      arrayLayers := a;
    }

    method SetSamples(a: Flags)
      modifies this`samples
      ensures samples == a
    {
      samples := a;
    }

    method SetSharingMode(a: nat)
      modifies this`sharingMode
      ensures sharingMode == a
    {
      sharingMode := a;
    }

    method SetInitialLayout(a: nat)
      modifies this`initialLayout
      ensures initialLayout == a
    {
      initialLayout := a;
    }

    method SetAspectFlags(a: Flags)
      modifies product`aspectFlags
      ensures product.aspectFlags == a
    {
      product.aspectFlags := a;
    }
  }
}
