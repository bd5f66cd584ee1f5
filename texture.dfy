/**
 * Textures: a sampled 2D image with its view and sampler, built from pixels
 * given in memory or loaded from a file. The pixels go through a host-visible
 * staging buffer; the image is moved to TRANSFER_DST layout, filled from the
 * buffer, and moved to SHADER_READ_ONLY layout for the fragment shader.
 */
module Textures {
  import opened Vulkan
  import opened Devices
  import opened Buffers
  import opened Images

  /**
   * `width * height * 4` as build() computes it: the operands are 32-bit
   * unsigned, so the product wraps modulo 2^32 before it widens to size_t.
   */
  function UploadSize(width: nat, height: nat): (size: nat)
    ensures size < UINT32_LIMIT
    ensures (width * height * 4 - size) % UINT32_LIMIT == 0
    ensures width * height * 4 < UINT32_LIMIT ==> size == width * height * 4
  {
    (width * height * 4) % UINT32_LIMIT
  }

  /** What stbi_load returns with STBI_rgb_alpha: the extent and four bytes per pixel. */
  datatype LoadedImage = LoadedImage(width: nat, height: nat, pixels: seq<byte>)

  /**
   * stb_image hands back width * height * 4 bytes and refuses an image whose
   * byte size does not fit in an int.
   */
  predicate DecodedByStbi(file: LoadedImage)
  {
    |file.pixels| == file.width * file.height * 4 < 0x8000_0000
  }

  /** The sampler every texture gets: one filter both ways, linear mip blending, repeat on all axes. */
  function TextureSampler(filter: nat, anisotropy: bool): SamplerCreateInfo
  {
    SamplerCreateInfo(filter, filter, SAMPLER_MIPMAP_MODE_LINEAR,
                      SAMPLER_ADDRESS_MODE_REPEAT, SAMPLER_ADDRESS_MODE_REPEAT, SAMPLER_ADDRESS_MODE_REPEAT,
                      anisotropy, false, COMPARE_OP_ALWAYS, BORDER_COLOR_INT_OPAQUE_BLACK, false)
  }

  /**
   * The transition ImageLayoutTransitionDirector::createBuilder<TFrom, TTo>
   * followed by setImage produces on a fresh builder, for a pair of layouts
   * the director specialises.
   */
  function LayoutTransition(oldLayout: nat, newLayout: nat, image: Handle, aspect: Flags): ImageLayoutTransition
    requires SpecialisedMasks(oldLayout, newLayout).Some?
  {
    var m := SpecialisedMasks(oldLayout, newLayout).value;
    FreshTransition.(
      barrier := FreshTransition.barrier.(
        oldLayout := oldLayout, newLayout := newLayout,
        srcAccessMask := m.srcAccessMask, dstAccessMask := m.dstAccessMask,
        image := image,
        subresourceRange := FreshTransition.barrier.subresourceRange.(aspectMask := aspect)),
      srcStageMask := m.srcStageMask, dstStageMask := m.dstStageMask)
  }

  function BarrierCommand(t: ImageLayoutTransition): Command
  {
    PipelineBarrier(t.srcStageMask, t.dstStageMask, t.barrier)
  }

  /** The three one-time submissions that fill `image` from `buffer` and make it readable by shaders. */
  function UploadSubmissions(image: Handle, aspect: Flags, width: nat, height: nat, buffer: Handle): seq<seq<Command>>
  {
    [[BarrierCommand(LayoutTransition(LAYOUT_UNDEFINED, LAYOUT_TRANSFER_DST_OPTIMAL, image, aspect))],
     [Command.CopyBufferToImage(buffer, image, LAYOUT_TRANSFER_DST_OPTIMAL,
                                BufferImageCopy(0, 0, 0, aspect, 0, 0, 1, 0, 0, 0, width, height, 1))],
     [BarrierCommand(LayoutTransition(LAYOUT_TRANSFER_DST_OPTIMAL, LAYOUT_SHADER_READ_ONLY_OPTIMAL, image, aspect))]]
  }

  /**
   * The upload is well ordered: the first barrier leaves the whole image in
   * the layout the copy writes in, the second takes it from there to the
   * layout the sampler reads in, and the second barrier waits on exactly the
   * accesses and stages the first one made the copy wait for. Both barriers
   * and the copy cover the same image and aspect, at mip level 0, layer 0.
   */
  lemma UploadSubmissionsChain(image: Handle, aspect: Flags, width: nat, height: nat, buffer: Handle)
    ensures var u := UploadSubmissions(image, aspect, width, height, buffer);
            && |u| == 3 && |u[0]| == 1 && |u[1]| == 1 && |u[2]| == 1
            && u[0][0].PipelineBarrier? && u[1][0].CopyBufferToImage? && u[2][0].PipelineBarrier?
            && u[0][0].barrier.oldLayout == LAYOUT_UNDEFINED
            && u[0][0].barrier.newLayout == u[1][0].dstLayout == u[2][0].barrier.oldLayout
            && u[2][0].barrier.newLayout == LAYOUT_SHADER_READ_ONLY_OPTIMAL
            && u[0][0].barrier.dstAccessMask == u[2][0].barrier.srcAccessMask
            && u[0][0].dstStageMask == u[2][0].srcStageMask
            && u[0][0].barrier.image == u[1][0].image == u[2][0].barrier.image == image
            && u[0][0].barrier.subresourceRange == u[2][0].barrier.subresourceRange == SubresourceRange(aspect, 0, 1, 0, 1)
            && u[1][0].region.aspectMask == aspect && u[1][0].region.mipLevel == 0 && u[1][0].region.baseArrayLayer == 0
  {
    UploadThenReadChains();
  }

  /**
   * The driver state once the staging buffer exists: the buffer and its
   * memory of type `memoryType` are created and bound, and the memory holds
   * the first `size` bytes of `data` and is no longer mapped.
   */
  ghost function Staged(s: DriverState, size: nat, data: seq<byte>, allocationSize: nat, memoryType: nat): DriverState
    requires size <= |data|
  {
    var created := BufferCreated(s, BufferInfo(size, BUFFER_USAGE_TRANSFER_SRC, SHARING_MODE_EXCLUSIVE),
                                 allocationSize, Some(memoryType), true, true);
    created.(memory := created.memory[s.nextHandle + 1 := data[..size]], mapped := created.mapped - {s.nextHandle + 1})
  }

  /** The view createImageView makes: 2D, the image's format and aspect, identity swizzle, first level and layer. */
  function WholeImageView(image: Handle, format: nat, aspect: Flags): CreateInfo
  {
    ImageViewInfo(image, IMAGE_VIEW_TYPE_2D, format,
                  ComponentMapping(COMPONENT_SWIZZLE_R, COMPONENT_SWIZZLE_G, COMPONENT_SWIZZLE_B, COMPONENT_SWIZZLE_A),
                  SubresourceRange(aspect, 0, 1, 0, 1))
  }

  /**
   * The driver state at the end of a build that got as far as the sampler:
   * staged, uploaded, the view and the sampler created as far as they
   * succeeded, and the staging memory and buffer released.
   */
  ghost function TextureCreated(s: DriverState, size: nat, data: seq<byte>, allocationSize: nat, memoryType: nat,
                                image: Handle, format: nat, aspect: Flags, width: nat, height: nat,
                                sampler: SamplerCreateInfo, viewOk: bool, samplerOk: bool): DriverState
    requires size <= |data|
  {
    var staged := Staged(s, size, data, allocationSize, memoryType);
    var uploaded := staged.(submissions := staged.submissions + UploadSubmissions(image, aspect, width, height, s.nextHandle));
    var viewed := AfterCreate(uploaded, WholeImageView(image, format, aspect), viewOk);
    var sampled := AfterCreate(viewed, SamplerInfo(sampler), samplerOk);
    AfterRelease(sampled, [s.nextHandle + 1, s.nextHandle])
  }

  /**
   * What a build leaves behind of the staging buffer: it and its memory,
   * which held exactly the uploaded pixels, are released (memory first) and
   * no longer live, and the three upload submissions name that buffer as
   * the copy's source.
   */
  lemma TextureBuildReleasesStaging(s: DriverState, size: nat, data: seq<byte>, allocationSize: nat, memoryType: nat,
                                    image: Handle, format: nat, aspect: Flags, width: nat, height: nat,
                                    sampler: SamplerCreateInfo, viewOk: bool, samplerOk: bool)
    requires WellFormed(s)
    requires size <= |data|
    ensures var t := TextureCreated(s, size, data, allocationSize, memoryType, image, format, aspect, width, height,
                                    sampler, viewOk, samplerOk);
            var n := s.nextHandle;
            && WellFormed(t)
            && t.released == s.released + [n + 1, n]
            && n !in t.live && n + 1 !in t.live
            && t.created[n] == BufferInfo(size, BUFFER_USAGE_TRANSFER_SRC, SHARING_MODE_EXCLUSIVE)
            && t.memory[n + 1] == data[..size]
            && t.submissions == s.submissions + UploadSubmissions(image, aspect, width, height, n)
  {
    var n := s.nextHandle;
    var staged := Staged(s, size, data, allocationSize, memoryType);
    assert staged.nextHandle == n + 2 && staged.live == s.live + {n, n + 1};
    var uploaded := staged.(submissions := staged.submissions + UploadSubmissions(image, aspect, width, height, n));
    var viewed := AfterCreate(uploaded, WholeImageView(image, format, aspect), viewOk);
    assert viewed.nextHandle == if viewOk then n + 3 else n + 2;
  }

  /**
   * The view (of the texture's image) and the sampler a build creates, when
   * it does, are fresh handles, live at the end, created from the
   * texture's view and sampler descriptions.
   */
  lemma TextureBuildKeepsViewAndSampler(s: DriverState, size: nat, data: seq<byte>, allocationSize: nat, memoryType: nat,
                                        image: Handle, format: nat, aspect: Flags, width: nat, height: nat,
                                        sampler: SamplerCreateInfo, viewOk: bool, samplerOk: bool)
    requires WellFormed(s)
    requires size <= |data|
    ensures var t := TextureCreated(s, size, data, allocationSize, memoryType, image, format, aspect, width, height,
                                    sampler, viewOk, samplerOk);
            var view := s.nextHandle + 2;
            var samplerHandle := if viewOk then s.nextHandle + 3 else s.nextHandle + 2;
            && (viewOk ==> view in t.live && view !in s.created && t.created[view] == WholeImageView(image, format, aspect))
            && (samplerOk ==> samplerHandle in t.live && samplerHandle !in s.created && t.created[samplerHandle] == SamplerInfo(sampler))
  {
    var n := s.nextHandle;
    var staged := Staged(s, size, data, allocationSize, memoryType);
    assert staged.nextHandle == n + 2 && staged.live == s.live + {n, n + 1};
    var uploaded := staged.(submissions := staged.submissions + UploadSubmissions(image, aspect, width, height, n));
    var viewed := AfterCreate(uploaded, WholeImageView(image, format, aspect), viewOk);
    assert viewed.nextHandle == if viewOk then n + 3 else n + 2;
  }

  /** Nothing but the view and the sampler is left live that was not live before a build. */
  lemma TextureBuildLeavesOnlyViewAndSampler(s: DriverState, size: nat, data: seq<byte>, allocationSize: nat, memoryType: nat,
                                             image: Handle, format: nat, aspect: Flags, width: nat, height: nat,
                                             sampler: SamplerCreateInfo, viewOk: bool, samplerOk: bool)
    requires WellFormed(s)
    requires size <= |data|
    ensures var t := TextureCreated(s, size, data, allocationSize, memoryType, image, format, aspect, width, height,
                                    sampler, viewOk, samplerOk);
            var view := s.nextHandle + 2;
            var samplerHandle := if viewOk then s.nextHandle + 3 else s.nextHandle + 2;
            t.live == s.live + (if viewOk then {view} else {}) + (if samplerOk then {samplerHandle} else {})
  {
    var n := s.nextHandle;
    var staged := Staged(s, size, data, allocationSize, memoryType);
    assert staged.nextHandle == n + 2 && staged.live == s.live + {n, n + 1};
    var uploaded := staged.(submissions := staged.submissions + UploadSubmissions(image, aspect, width, height, n));
    var viewed := AfterCreate(uploaded, WholeImageView(image, format, aspect), viewOk);
    assert viewed.nextHandle == if viewOk then n + 3 else n + 2;
    assert viewed.live == staged.live + (if viewOk then {n + 2} else {});
    var sampled := AfterCreate(viewed, SamplerInfo(sampler), samplerOk);
    assert sampled.live == viewed.live + (if samplerOk then {viewed.nextHandle} else {});
    assert n !in s.live && n + 1 !in s.live;
  }

  /** A build keeps the record of every object created before it. */
  lemma TextureBuildKeepsEarlierObjects(s: DriverState, size: nat, data: seq<byte>, allocationSize: nat, memoryType: nat,
                                        image: Handle, format: nat, aspect: Flags, width: nat, height: nat,
                                        sampler: SamplerCreateInfo, viewOk: bool, samplerOk: bool)
    requires WellFormed(s)
    requires size <= |data|
    ensures var t := TextureCreated(s, size, data, allocationSize, memoryType, image, format, aspect, width, height,
                                    sampler, viewOk, samplerOk);
            forall h :: h in s.created ==> h in t.created && t.created[h] == s.created[h]
  {
    var n := s.nextHandle;
    var staged := Staged(s, size, data, allocationSize, memoryType);
    assert staged.nextHandle == n + 2;
    assert staged.created == s.created[n := BufferInfo(size, BUFFER_USAGE_TRANSFER_SRC, SHARING_MODE_EXCLUSIVE)]
                                      [n + 1 := MemoryInfo(allocationSize, memoryType)];
    var uploaded := staged.(submissions := staged.submissions + UploadSubmissions(image, aspect, width, height, n));
    var viewed := AfterCreate(uploaded, WholeImageView(image, format, aspect), viewOk);
    assert viewed.nextHandle == if viewOk then n + 3 else n + 2;
    assert n !in s.created && n + 1 !in s.created;
  }

  /**
   * The part of build() after the image exists: the upload, the view, the
   * sampler, and the destruction of the staging buffer when it goes out of
   * scope.
   */
  method CreateImageResources(drv: Driver, texture: Texture, image: Image, staging: Buffer,
                              filter: nat, anisotropy: bool, viewOk: bool, samplerOk: bool)
    requires drv.Valid()
    requires image.device != null && image.device.alive && image.handle != NULL_HANDLE
    requires staging.device != null && staging.device.alive
    modifies drv, texture`image, texture`imageView, texture`sampler
    ensures drv.Valid()
    ensures texture.image == image
    ensures texture.imageView == (if viewOk then old(drv.st.nextHandle) else NULL_HANDLE)
    ensures texture.sampler == (if samplerOk then old(drv.st.nextHandle) + (if viewOk then 1 else 0) else NULL_HANDLE)
    ensures var uploaded := old(drv.st).(submissions := old(drv.st.submissions) +
                              UploadSubmissions(image.handle, image.aspectFlags, image.width, image.height, staging.handle));
            var viewed := AfterCreate(uploaded, WholeImageView(image.handle, image.format, image.aspectFlags), viewOk);
            drv.st == AfterRelease(AfterCreate(viewed, SamplerInfo(TextureSampler(filter, anisotropy)), samplerOk),
                                   [staging.memory, staging.handle])
  {
    texture.image := image;
    UploadToImage(drv, image, staging.handle);
    var view := image.CreateImageView(drv, viewOk);
    texture.imageView := view.value;
    texture.sampler := drv.Create(SamplerInfo(TextureSampler(filter, anisotropy)), samplerOk);
    var destroyed := staging.Destroy(drv);
  }

  /**
   * The staging buffer of build(): the director's staging preset (transfer
   * source, host-visible and coherent memory) of `size` bytes, filled with
   * the first `size` bytes of `data`. The builder's null product is
   * dereferenced when creation or allocation failed; a missing memory type
   * throws.
   */
  method CreateStagingBuffer(drv: Driver, device: Device, size: nat, data: seq<byte>,
                             createOk: bool, requirements: MemoryRequirements, allocOk: bool)
    returns (outcome: Outcome<Buffer>)
    requires drv.Valid()
    requires device.alive
    requires size <= |data|   // memcpy reads `size` bytes of the image data
    modifies drv
    ensures drv.Valid()
    ensures var memoryType := FirstSuitableMemoryType(device.physical.memoryTypes, requirements.memoryTypeBits, HOST_VISIBLE_COHERENT, 0);
            var created := BufferCreated(old(drv.st), BufferInfo(size, BUFFER_USAGE_TRANSFER_SRC, SHARING_MODE_EXCLUSIVE),
                                         requirements.size, memoryType, createOk, allocOk);
            var handle := old(drv.st.nextHandle);
            && (createOk && memoryType.None? ==> outcome == Aborted(BadOptionalAccess) && drv.st == created)
            && (!createOk || (memoryType.Some? && !allocOk) ==> outcome == Aborted(NullDereference) && drv.st == created)
            && (createOk && memoryType.Some? && allocOk ==>
                  && outcome.Returned? && fresh(outcome.value)
                  && outcome.value.device == device && outcome.value.size == size
                  && outcome.value.handle == handle && outcome.value.memory == handle + 1
                  && drv.st == created.(memory := created.memory[handle + 1 := data[..size]],
                                        mapped := created.mapped - {handle + 1}))
  {
    var builder := new BufferBuilder();
    CreatePresetBuilder(Staging, builder);
    builder.SetDevice(device);
    builder.SetSize(size);
    var built := builder.Build(drv, createOk, requirements, allocOk);
    if built.Aborted? {
      return Aborted(built.failure);
    }
    if built.value == null {
      return Aborted(NullDereference);
    }
    var buffer := built.value;
    var copied := buffer.CopyDataToMemory(drv, data);
    outcome := Returned(buffer);
  }

  /**
   * Fills `image` from `buffer`: the transition to TRANSFER_DST_OPTIMAL,
   * the copy, and the transition to SHADER_READ_ONLY_OPTIMAL, each built by
   * the transition director and submitted on its own.
   */
  method UploadToImage(drv: Driver, image: Image, buffer: Handle)
    requires drv.Valid()
    requires image.device != null && image.device.alive
    requires image.handle != NULL_HANDLE   // ImageLayoutTransitionBuilder::build asserts an image was set
    modifies drv
    ensures drv.Valid()
    ensures drv.st == old(drv.st).(submissions := old(drv.st.submissions) +
              UploadSubmissions(image.handle, image.aspectFlags, image.width, image.height, buffer))
  {
    var transitions := new ImageLayoutTransitionBuilder();
    CreateTransitionBuilder(LAYOUT_UNDEFINED, LAYOUT_TRANSFER_DST_OPTIMAL, transitions);
    transitions.SetImage(image);
    var toTransfer := transitions.Build();
    var transitioned := image.TransitionImageLayout(drv, toTransfer);

    var copied := image.CopyBufferToImage(drv, buffer);

    CreateTransitionBuilder(LAYOUT_TRANSFER_DST_OPTIMAL, LAYOUT_SHADER_READ_ONLY_OPTIMAL, transitions);
    transitions.SetImage(image);
    var toShaderRead := transitions.Build();
    transitioned := image.TransitionImageLayout(drv, toShaderRead);
  }

  /**
   * The part of build() after the pixels are known: the staging buffer of
   * the texture's upload size filled with its pixels, then, when the image
   * was built, the upload, the view and the sampler. The staging buffer
   * is destroyed here; build() destroys it when it goes out of scope, after
   * the restart, which the driver does not see.
   */
  method StageAndUpload(drv: Driver, texture: Texture, device: Device, image: Image?, filter: nat, anisotropy: bool,
                        stagingOk: bool, stagingRequirements: MemoryRequirements, stagingAllocOk: bool,
                        viewOk: bool, samplerOk: bool)
    returns (outcome: Outcome<()>)
    requires drv.Valid()
    requires device.alive
    requires UploadSize(texture.width, texture.height) <= |texture.imageData|
    requires image != null ==> image.device != null && image.device.alive && image.handle != NULL_HANDLE
    modifies drv, texture`image, texture`imageView, texture`sampler
    ensures drv.Valid()
    ensures var memoryType := FirstSuitableMemoryType(device.physical.memoryTypes, stagingRequirements.memoryTypeBits,
                                                      HOST_VISIBLE_COHERENT, 0);
            var staged := stagingOk && memoryType.Some? && stagingAllocOk;
            var size := UploadSize(texture.width, texture.height);
            var s := old(drv.st.nextHandle);
            && (!staged ==> outcome.Aborted? && (outcome.failure == BadOptionalAccess <==> stagingOk && memoryType.None?))
            && (staged && image == null ==>
                  && outcome == Aborted(NullDereference) && texture.image == null
                  && drv.st == Staged(old(drv.st), size, texture.imageData, stagingRequirements.size, memoryType.value))
            && (staged && image != null ==>
                  && outcome == Returned(())
                  && texture.image == image
                  && texture.imageView == (if viewOk then s + 2 else NULL_HANDLE)
                  && texture.sampler == (if samplerOk then (if viewOk then s + 3 else s + 2) else NULL_HANDLE)
                  && drv.st == TextureCreated(old(drv.st), size, texture.imageData, stagingRequirements.size, memoryType.value,
                                              image.handle, image.format, image.aspectFlags, image.width, image.height,
                                              TextureSampler(filter, anisotropy), viewOk, samplerOk))
  {
    var imageSize := UploadSize(texture.width, texture.height);
    var staging := CreateStagingBuffer(drv, device, imageSize, texture.imageData,
                                       stagingOk, stagingRequirements, stagingAllocOk);
    if staging.Aborted? {
      return Aborted(staging.failure);
    }
    texture.image := image;
    if image == null {
      return Aborted(NullDereference);
    }
    CreateImageResources(drv, texture, image, staging.value, filter, anisotropy, viewOk, samplerOk);
    outcome := Returned(());
  }

  /**
   * A texture. Texture() is defaulted, so its scalar members start out
   * indeterminate; the model starts them at zero and VK_NULL_HANDLE.
   */
  class Texture {
    var device: Device?
    var width: nat
    var height: nat
    var image: Image?
    var imageView: Handle
    var sampler: Handle
    var imageData: seq<byte>
    /** Whether the shared_ptr owning this texture still exists (what a weak_ptr to it can lock). */
    var alive: bool

    constructor ()
      ensures device == null && width == 0 && height == 0 && image == null
      ensures imageView == NULL_HANDLE && sampler == NULL_HANDLE && imageData == [] && alive
    {
      alive := true;
      device := null;
      width := 0;
      height := 0;
      image := null;
      imageView := NULL_HANDLE;
      sampler := NULL_HANDLE;
      imageData := [];
    }

    /**
     * The destructor: the image goes first (its memory, then the image);
     * the sampler and then the view are destroyed only while the device is
     * still alive. ~Image locks its own device without a check, so an image
     * whose device has expired dereferences null and nothing after it runs.
     */
    method Destroy(drv: Driver) returns (outcome: Outcome<()>)
      requires drv.Valid()
      modifies drv, this`image, this`alive
      ensures drv.Valid()
      ensures image == null
      ensures old(image) != null && !(old(image).device != null && old(image).device.alive) ==>
                outcome == Aborted(NullDereference) && drv.st == old(drv.st) && alive == old(alive)
      ensures !(old(image) != null && !(old(image).device != null && old(image).device.alive)) ==>
                && outcome == Returned(()) && !alive
                && drv.st == AfterRelease(old(drv.st),
                     (if old(image) != null then [old(image).memory, old(image).handle] else [])
                     + (if device != null && device.alive then [sampler, imageView] else []))
    {
      ghost var freed: seq<Handle> := [];
      if image != null {
        var owned := image;
        image := null;
        outcome := owned.Destroy(drv);
        if outcome.Aborted? {
          return;
        }
        freed := [owned.memory, owned.handle];
      }
      outcome := Returned(());
      if device != null && device.alive {
        drv.Release(sampler);
        drv.Release(imageView);
        freed := freed + [sampler, imageView];
      }
      assert drv.st.live == old(drv.st.live) - (set h | h in freed);
      alive := false;
    }
  }

  /**
   * TextureBuilder. The device is recorded on the builder and the product;
   * the extent and the pixels on the product; format, tiling, filter and
   * the file to load on the builder. Format, tiling and filter start out
   * indeterminate; the model starts them at zero.
   */
  class TextureBuilder {
    var product: Texture
    var device: Device?
    var format: nat
    var tiling: nat
    var samplerFilter: nat
    var textureFilename: string
    var loadFromFile: bool

    constructor ()
      ensures fresh(product) && product.device == null && product.width == 0 && product.height == 0
      ensures product.image == null && product.imageData == []
      ensures device == null && textureFilename == "" && !loadFromFile
    {
      product := new Texture();
      device := null;
      format := 0;
      tiling := 0;
      samplerFilter := 0;
      textureFilename := "";
      loadFromFile := false;
    }

    /** A fresh, unconfigured product; the builder's own settings are kept. */
    method Restart()
      modifies this`product
      ensures fresh(product) && product.device == null && product.width == 0 && product.height == 0
      ensures product.image == null && product.imageData == []
    {
      product := new Texture();
    }

    method SetDevice(device: Device?)
      modifies this`device, product`device
      ensures this.device == device && product.device == device
    {
      this.device := device;
      product.device := device;
    }

    method SetWidth(a: nat)
      requires a < UINT32_LIMIT
      modifies product`width
      ensures product.width == a
    {
      product.width := a;
    }

    method SetHeight(a: nat)
      requires a < UINT32_LIMIT
      modifies product`height
      ensures product.height == a
    {
      product.height := a;
    }

    /** Pixels given in memory replace any file set earlier. */
    method SetImageData(data: seq<byte>)
      modifies product`imageData, this`loadFromFile
      ensures product.imageData == data && !loadFromFile
    {
      product.imageData := data;
      loadFromFile := false;
    }

    /** A file set here replaces any pixels given earlier, at build time. */
    method SetTextureFilename(filename: string)
      modifies this`textureFilename, this`loadFromFile
      ensures textureFilename == filename && loadFromFile
    {
      textureFilename := filename;
      loadFromFile := true;
    }

    method SetFormat(a: nat)
      modifies this`format
      ensures format == a
    {
      format := a;
    }

    method SetTiling(a: nat)
      modifies this`tiling
      ensures tiling == a
    {
      tiling := a;
    }

    method SetSamplerFilter(a: nat)
      modifies this`samplerFilter
      ensures samplerFilter == a
    {
      samplerFilter := a;
    }

    /**
     * The file step of build(): when a file is set, its extent replaces the
     * product's and its pixels become the image data (resized to the upload
     * size, which for a decoded file is all of them). `file` is what
     * stbi_load returned; None stands for its null result.
     */
    method LoadImageData(file: Option<LoadedImage>) returns (loaded: bool)
      requires loadFromFile && file.Some? ==> DecodedByStbi(file.value)
      modifies product`width, product`height, product`imageData
      ensures loaded == !(loadFromFile && file.None?)
      ensures loadFromFile && file.Some? ==>
                product.width == file.value.width && product.height == file.value.height
                && product.imageData == file.value.pixels
                && UploadSize(product.width, product.height) == |product.imageData|
      ensures !loadFromFile || file.None? ==>
                product.width == old(product.width) && product.height == old(product.height)
                && product.imageData == old(product.imageData)
    {
      if !loadFromFile {
        return true;
      }
      if file.None? {
        return false;
      }
      product.width := file.value.width;
      product.height := file.value.height;
      var imageSize := UploadSize(product.width, product.height);
      product.imageData := file.value.pixels[..imageSize];
      loaded := true;
    }

    /**
     * build(). The driver's answers are parameters: the staging buffer's
     * creation, memory requirements and allocation; `image`, the result of
     * the image builder configured with this builder's device, format,
     * tiling and the product's extent (null when it failed); the view's and
     * the sampler's creation; and the device's samplerAnisotropy feature.
     *
     * A file that cannot be loaded yields null before anything is created.
     * A staging buffer that was not built, or an image that was not, is
     * dereferenced (or throws, for a missing memory type). A sampler that
     * cannot be created yields null and leaves the product, with its image
     * and view, in the builder. The staging buffer is destroyed on every
     * path that returns.
     */
    method Build(drv: Driver, file: Option<LoadedImage>,
                 stagingOk: bool, stagingRequirements: MemoryRequirements, stagingAllocOk: bool,
                 image: Image?, viewOk: bool, samplerOk: bool, anisotropy: bool)
      returns (outcome: Outcome<Texture?>)
      requires drv.Valid()
      requires device != null && device.alive   // assert(m_device.lock())
      requires loadFromFile && file.Some? ==> DecodedByStbi(file.value)
      requires !loadFromFile ==> UploadSize(product.width, product.height) <= |product.imageData|   // memcpy of imageSize bytes
      requires image != null ==>
                 && image.device == device && image.format == format
                 && image.width == (if loadFromFile && file.Some? then file.value.width else product.width)
                 && image.height == (if loadFromFile && file.Some? then file.value.height else product.height)
                 && image.handle != NULL_HANDLE
      modifies this`product, product, drv
      ensures drv.Valid()
      // no file: nothing happens
      ensures loadFromFile && file.None? ==>
                outcome == Returned(null) && product == old(product) && drv.st == old(drv.st)
      // the pixels are the file's when one was loaded, and then all of them are uploaded
      ensures loadFromFile && file.Some? ==>
                && old(product).width == file.value.width && old(product).height == file.value.height
                && old(product).imageData == file.value.pixels
                && UploadSize(old(product).width, old(product).height) == |file.value.pixels|
      ensures !loadFromFile ==>
                && old(product).width == old(product.width) && old(product).height == old(product.height)
                && old(product).imageData == old(product.imageData)
      ensures !(loadFromFile && file.None?) ==>
                var memoryType := FirstSuitableMemoryType(device.physical.memoryTypes, stagingRequirements.memoryTypeBits,
                                                          HOST_VISIBLE_COHERENT, 0);
                var staged := stagingOk && memoryType.Some? && stagingAllocOk;
                var size := UploadSize(old(product).width, old(product).height);
                var data := old(product).imageData;
                && size <= |data|
                // the staging buffer could not be built: the build aborts
                && (!staged ==> outcome.Aborted? && (outcome.failure == BadOptionalAccess <==> stagingOk && memoryType.None?))
                // no image: the build aborts with the staging buffer filled and never released
                && (staged && image == null ==>
                      && outcome == Aborted(NullDereference) && old(product).image == null
                      && drv.st == Staged(old(drv.st), size, data, stagingRequirements.size, memoryType.value))
                // otherwise the pixels reach the image through the staging buffer, which is then released
                && (staged && image != null ==>
                      var s := old(drv.st.nextHandle);
                      && old(product).image == image
                      && old(product).imageView == (if viewOk then s + 2 else NULL_HANDLE)
                      && old(product).sampler == (if samplerOk then (if viewOk then s + 3 else s + 2) else NULL_HANDLE)
                      && drv.st == TextureCreated(old(drv.st), size, data, stagingRequirements.size, memoryType.value,
                                                  image.handle, image.format, image.aspectFlags, image.width, image.height,
                                                  TextureSampler(samplerFilter, anisotropy), viewOk, samplerOk)
                      && (samplerOk ==> outcome == Returned(old(product) as Texture?) && fresh(product) && product.device == null)
                      && (!samplerOk ==> outcome == Returned(null) && product == old(product)))
    {
      var texture := product;
      var loaded := LoadImageData(file);
      if !loaded {
        return Returned(null);
      }

      var uploaded := StageAndUpload(drv, texture, device, image, samplerFilter, anisotropy,
                                     stagingOk, stagingRequirements, stagingAllocOk, viewOk, samplerOk);
      if uploaded.Aborted? {
        return Aborted(uploaded.failure);
      }
      if !samplerOk {
        return Returned(null);
      }
      Restart();
      outcome := Returned(texture);
    }
  }

  /** TextureDirector::createSRGBTextureBuilder: sRGB colour, optimal tiling, nearest filtering. */
  method CreateSRGBTextureBuilder(builder: TextureBuilder)
    modifies builder`format, builder`tiling, builder`samplerFilter
    ensures builder.format == FORMAT_R8G8B8A8_SRGB && builder.tiling == IMAGE_TILING_OPTIMAL
    ensures builder.samplerFilter == FILTER_NEAREST
  {
    builder.SetFormat(FORMAT_R8G8B8A8_SRGB);
    builder.SetTiling(IMAGE_TILING_OPTIMAL);
    builder.SetSamplerFilter(FILTER_NEAREST);
  }
}
