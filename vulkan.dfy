/**
 * The slice of the Vulkan API the playground uses, modelled as an abstract,
 * fallible allocator of fresh handles.
 *
 * Every vkCreate* or vkAllocate* call takes a boolean `ok` standing for the
 * VkResult the driver returned; a successful call yields a handle never
 * seen before, a failed one VK_NULL_HANDLE. The driver state records which
 * handles are live, what each was created from, the order of
 * vkDestroy* or vkFree* calls, memory bindings, host writes into memory
 * objects, queue submissions and descriptor-set updates.
 */
module Vulkan {

  datatype Option<T> = None | Some(value: T)

  /** A Vulkan handle; 0 is VK_NULL_HANDLE. */
  type Handle = nat
  const NULL_HANDLE: Handle := 0

  /** One byte of host memory. */
  newtype byte = x: int | 0 <= x < 0x100

  /** Any Vk*Flags bitmask (32 bits wide). */
  type Flags = bv32

  /** How a C++ call that does not return normally ends. */
  datatype Failure =
    | BadOptionalAccess   // std::optional::value() on an empty optional
    | NullDereference     // a null unique_ptr / shared_ptr is dereferenced

  datatype Outcome<T> = Returned(value: T) | Aborted(failure: Failure)

  const UINT32_LIMIT: int := 0x1_0000_0000

  // VkQueueFlagBits
  const QUEUE_GRAPHICS: Flags := 0x1

  // VkCommandPoolCreateFlagBits
  const COMMAND_POOL_CREATE_TRANSIENT: Flags := 0x1
  const COMMAND_POOL_CREATE_RESET_COMMAND_BUFFER: Flags := 0x2

  // VkBufferUsageFlagBits
  const BUFFER_USAGE_TRANSFER_SRC: Flags := 0x1
  const BUFFER_USAGE_TRANSFER_DST: Flags := 0x2
  const BUFFER_USAGE_UNIFORM_BUFFER: Flags := 0x10
  const BUFFER_USAGE_INDEX_BUFFER: Flags := 0x40
  const BUFFER_USAGE_VERTEX_BUFFER: Flags := 0x80

  // VkImageUsageFlagBits
  const IMAGE_USAGE_TRANSFER_DST: Flags := 0x2
  const IMAGE_USAGE_SAMPLED: Flags := 0x4

  // VkMemoryPropertyFlagBits
  const MEMORY_PROPERTY_DEVICE_LOCAL: Flags := 0x1
  const MEMORY_PROPERTY_HOST_VISIBLE: Flags := 0x2
  const MEMORY_PROPERTY_HOST_COHERENT: Flags := 0x4

  // VkAccessFlagBits
  const ACCESS_NONE: Flags := 0x0
  const ACCESS_SHADER_READ: Flags := 0x20
  const ACCESS_COLOR_ATTACHMENT_READ: Flags := 0x80
  const ACCESS_COLOR_ATTACHMENT_WRITE: Flags := 0x100
  const ACCESS_DEPTH_STENCIL_ATTACHMENT_READ: Flags := 0x200
  const ACCESS_DEPTH_STENCIL_ATTACHMENT_WRITE: Flags := 0x400
  const ACCESS_TRANSFER_READ: Flags := 0x800
  const ACCESS_TRANSFER_WRITE: Flags := 0x1000

  // VkPipelineStageFlagBits
  const PIPELINE_STAGE_TOP_OF_PIPE: Flags := 0x1
  const PIPELINE_STAGE_VERTEX_SHADER: Flags := 0x8
  const PIPELINE_STAGE_FRAGMENT_SHADER: Flags := 0x80
  const PIPELINE_STAGE_EARLY_FRAGMENT_TESTS: Flags := 0x100
  const PIPELINE_STAGE_LATE_FRAGMENT_TESTS: Flags := 0x200
  const PIPELINE_STAGE_COLOR_ATTACHMENT_OUTPUT: Flags := 0x400
  const PIPELINE_STAGE_COMPUTE_SHADER: Flags := 0x800
  const PIPELINE_STAGE_TRANSFER: Flags := 0x1000

  // VkImageLayout
  const LAYOUT_UNDEFINED: nat := 0
  const LAYOUT_COLOR_ATTACHMENT_OPTIMAL: nat := 2
  const LAYOUT_DEPTH_STENCIL_ATTACHMENT_OPTIMAL: nat := 3
  const LAYOUT_SHADER_READ_ONLY_OPTIMAL: nat := 5
  const LAYOUT_TRANSFER_DST_OPTIMAL: nat := 7
  const LAYOUT_PRESENT_SRC_KHR: nat := 1000001002

  // VK_QUEUE_FAMILY_IGNORED and VK_SUBPASS_EXTERNAL (both ~0U)
  const QUEUE_FAMILY_IGNORED: nat := 0xFFFF_FFFF
  const SUBPASS_EXTERNAL: nat := 0xFFFF_FFFF

  // VkStructureType
  const STRUCTURE_TYPE_IMAGE_MEMORY_BARRIER: nat := 45

  // VkFormat
  const FORMAT_UNDEFINED: nat := 0
  const FORMAT_R8G8B8A8_SRGB: nat := 43
  const FORMAT_R32G32_SFLOAT: nat := 103
  const FORMAT_R32G32B32_SFLOAT: nat := 106
  const FORMAT_R32G32B32A32_SFLOAT: nat := 109

  // VkSampleCountFlagBits
  const SAMPLE_COUNT_1: Flags := 0x1

  // VkAttachmentLoadOp / VkAttachmentStoreOp
  const ATTACHMENT_LOAD_OP_CLEAR: nat := 1
  const ATTACHMENT_LOAD_OP_DONT_CARE: nat := 2
  const ATTACHMENT_STORE_OP_STORE: nat := 0
  const ATTACHMENT_STORE_OP_DONT_CARE: nat := 1

  // VkImageType, VkImageViewType, VkSharingMode, VkImageTiling
  const IMAGE_TYPE_2D: nat := 1
  const IMAGE_VIEW_TYPE_2D: nat := 1
  const SHARING_MODE_EXCLUSIVE: nat := 0
  const IMAGE_TILING_OPTIMAL: nat := 0

  // VkImageAspectFlagBits
  const IMAGE_ASPECT_COLOR: Flags := 0x1
  const IMAGE_ASPECT_DEPTH: Flags := 0x2

  // VkComponentSwizzle
  const COMPONENT_SWIZZLE_R: nat := 3
  const COMPONENT_SWIZZLE_G: nat := 4
  const COMPONENT_SWIZZLE_B: nat := 5
  const COMPONENT_SWIZZLE_A: nat := 6

  // VkPipelineBindPoint
  const PIPELINE_BIND_POINT_GRAPHICS: nat := 0

  // VkDescriptorType
  const DESCRIPTOR_TYPE_COMBINED_IMAGE_SAMPLER: nat := 1
  const DESCRIPTOR_TYPE_UNIFORM_BUFFER: nat := 6

  // VkIndexType, VkVertexInputRate
  const INDEX_TYPE_UINT16: nat := 0
  const VERTEX_INPUT_RATE_VERTEX: nat := 0

  // VkShaderStageFlagBits
  const SHADER_STAGE_VERTEX: Flags := 0x1
  const SHADER_STAGE_FRAGMENT: Flags := 0x10

  // VkDynamicState, VkPrimitiveTopology, VkPolygonMode, VkCullModeFlagBits,
  // VkFrontFace, VkCompareOp, VkBlendFactor, VkBlendOp, VkLogicOp
  const DYNAMIC_STATE_VIEWPORT: nat := 0
  const DYNAMIC_STATE_SCISSOR: nat := 1
  const PRIMITIVE_TOPOLOGY_TRIANGLE_LIST: nat := 3
  const POLYGON_MODE_FILL: nat := 0
  const CULL_MODE_BACK: Flags := 0x2
  const FRONT_FACE_COUNTER_CLOCKWISE: nat := 0
  const COMPARE_OP_LESS: nat := 1
  const COMPARE_OP_ALWAYS: nat := 7
  const BLEND_FACTOR_ZERO: nat := 0
  const BLEND_FACTOR_ONE: nat := 1
  const BLEND_FACTOR_SRC_ALPHA: nat := 6
  const BLEND_FACTOR_ONE_MINUS_SRC_ALPHA: nat := 7
  const BLEND_OP_ADD: nat := 0
  const LOGIC_OP_COPY: nat := 3
  const COLOR_COMPONENT_RGBA: Flags := 0xF

  // VkFilter, VkSamplerMipmapMode, VkSamplerAddressMode, VkBorderColor
  const FILTER_NEAREST: nat := 0
  const SAMPLER_MIPMAP_MODE_LINEAR: nat := 1
  const SAMPLER_ADDRESS_MODE_REPEAT: nat := 0
  const BORDER_COLOR_INT_OPAQUE_BLACK: nat := 3

  datatype Extent2D = Extent2D(width: nat, height: nat)

  /** VkMemoryRequirements as returned by vkGet*MemoryRequirements. */
  datatype MemoryRequirements = MemoryRequirements(size: nat, alignment: nat, memoryTypeBits: Flags)

  datatype QueueCreateInfo = QueueCreateInfo(queueFamilyIndex: nat, queueCount: nat)

  datatype SubresourceRange =
    SubresourceRange(aspectMask: Flags, baseMipLevel: nat, levelCount: nat, baseArrayLayer: nat, layerCount: nat)

  datatype ImageMemoryBarrier = ImageMemoryBarrier(
    sType: nat,
    srcAccessMask: Flags,
    dstAccessMask: Flags,
    oldLayout: nat,
    newLayout: nat,
    srcQueueFamilyIndex: nat,
    dstQueueFamilyIndex: nat,
    image: Handle,
    subresourceRange: SubresourceRange)

  /** A value-initialised (`= {}`) VkImageMemoryBarrier. */
  const ZeroBarrier: ImageMemoryBarrier :=
    ImageMemoryBarrier(0, 0, 0, 0, 0, 0, 0, NULL_HANDLE, SubresourceRange(0, 0, 0, 0, 0))

  datatype ImageCreateInfo = ImageCreateInfo(
    imageType: nat,
    format: nat,
    width: nat,
    height: nat,
    depth: nat,
    mipLevels: nat,
    arrayLayers: nat,
    samples: Flags,
    tiling: nat,
    usage: Flags,
    sharingMode: nat,
    initialLayout: nat)

  datatype ComponentMapping = ComponentMapping(r: nat, g: nat, b: nat, a: nat)

  datatype SamplerCreateInfo = SamplerCreateInfo(
    magFilter: nat,
    minFilter: nat,
    mipmapMode: nat,
    addressModeU: nat,
    addressModeV: nat,
    addressModeW: nat,
    anisotropyEnable: bool,
    compareEnable: bool,
    compareOp: nat,
    borderColor: nat,
    unnormalizedCoordinates: bool)

  datatype AttachmentDescription = AttachmentDescription(
    format: nat,
    samples: Flags,
    loadOp: nat,
    storeOp: nat,
    stencilLoadOp: nat,
    stencilStoreOp: nat,
    initialLayout: nat,
    finalLayout: nat)

  datatype AttachmentReference = AttachmentReference(attachment: nat, layout: nat)

  datatype SubpassDescription = SubpassDescription(
    pipelineBindPoint: nat,
    colorAttachments: seq<AttachmentReference>,
    depthStencilAttachment: Option<AttachmentReference>)

  datatype SubpassDependency = SubpassDependency(
    srcSubpass: nat,
    dstSubpass: nat,
    srcStageMask: Flags,
    dstStageMask: Flags,
    srcAccessMask: Flags,
    dstAccessMask: Flags)

  datatype ShaderStageInfo = ShaderStageInfo(stage: Flags, shaderModule: Handle, entryPoint: string)

  datatype VertexInputBinding = VertexInputBinding(binding: nat, stride: nat, inputRate: nat)

  datatype VertexInputAttribute = VertexInputAttribute(location: nat, binding: nat, format: nat, offset: nat)

  datatype PushConstantRange = PushConstantRange(stageFlags: Flags, offset: nat, size: nat)

  datatype DescriptorPoolSize = DescriptorPoolSize(descriptorType: nat, descriptorCount: nat)

  datatype DescriptorSetLayoutBinding =
    DescriptorSetLayoutBinding(binding: nat, descriptorType: nat, descriptorCount: nat, stageFlags: Flags)

  datatype DescriptorBufferInfo = DescriptorBufferInfo(buffer: Handle, offset: nat, range: nat)

  datatype DescriptorImageInfo = DescriptorImageInfo(sampler: Handle, imageView: Handle, imageLayout: nat)

  datatype DescriptorInfo = BufferDescriptor(bufferInfo: DescriptorBufferInfo) | ImageDescriptor(imageInfo: DescriptorImageInfo)

  datatype WriteDescriptorSet = WriteDescriptorSet(
    dstSet: Handle,
    dstBinding: nat,
    dstArrayElement: nat,
    descriptorCount: nat,
    descriptorType: nat,
    info: DescriptorInfo)

  datatype BufferImageCopy = BufferImageCopy(
    bufferOffset: nat,
    bufferRowLength: nat,
    bufferImageHeight: nat,
    aspectMask: Flags,
    mipLevel: nat,
    baseArrayLayer: nat,
    layerCount: nat,
    offsetX: int,
    offsetY: int,
    offsetZ: int,
    width: nat,
    height: nat,
    depth: nat)

  /** The non-floating-point part of a graphics pipeline's fixed-function state. */
  datatype FixedFunctionState = FixedFunctionState(
    topology: nat,
    primitiveRestartEnable: bool,
    depthClampEnable: bool,
    rasterizerDiscardEnable: bool,
    polygonMode: nat,
    cullMode: Flags,
    frontFace: nat,
    depthBiasEnable: bool,
    rasterizationSamples: Flags,
    sampleShadingEnable: bool,
    alphaToCoverageEnable: bool,
    alphaToOneEnable: bool,
    depthTestEnable: bool,
    depthWriteEnable: bool,
    depthCompareOp: nat,
    depthBoundsTestEnable: bool,
    stencilTestEnable: bool,
    blendEnable: bool,
    srcColorBlendFactor: nat,
    dstColorBlendFactor: nat,
    colorBlendOp: nat,
    srcAlphaBlendFactor: nat,
    dstAlphaBlendFactor: nat,
    alphaBlendOp: nat,
    colorWriteMask: Flags,
    logicOpEnable: bool,
    logicOp: nat)

  datatype GraphicsPipelineCreateInfo = GraphicsPipelineCreateInfo(
    stages: seq<ShaderStageInfo>,
    stageCount: nat,
    vertexBinding: VertexInputBinding,
    vertexAttributes: seq<VertexInputAttribute>,
    fixed: FixedFunctionState,
    dynamicStates: seq<nat>,
    viewportCount: nat,
    scissorCount: nat,
    colorBlendAttachmentCount: nat,
    layout: Handle,
    renderPass: Handle,
    subpass: nat,
    basePipelineHandle: Handle,
    basePipelineIndex: int)

  /** What an object was created or allocated from. */
  datatype CreateInfo =
    | DeviceInfo(queueCreateInfos: seq<QueueCreateInfo>)
    | CommandPoolInfo(flags: Flags, queueFamilyIndex: nat)
    | BufferInfo(size: nat, usage: Flags, sharingMode: nat)
    | MemoryInfo(allocationSize: nat, memoryTypeIndex: nat)
    | ImageInfo(image: ImageCreateInfo)
    | ImageViewInfo(viewImage: Handle, viewType: nat, viewFormat: nat, components: ComponentMapping, range: SubresourceRange)
    | SamplerInfo(sampler: SamplerCreateInfo)
    | RenderPassInfo(attachments: seq<AttachmentDescription>, subpasses: seq<SubpassDescription>, dependencies: seq<SubpassDependency>)
    | FramebufferInfo(renderPass: Handle, views: seq<Handle>, width: nat, height: nat, layers: nat)
    | ShaderModuleInfo(code: seq<byte>)
    | DescriptorSetLayoutInfo(bindings: seq<DescriptorSetLayoutBinding>)
    | PipelineLayoutInfo(setLayouts: seq<Handle>, pushConstantRangeCount: nat)
    | GraphicsPipelineInfo(pipeline: GraphicsPipelineCreateInfo)
    | DescriptorPoolInfo(maxSets: nat, poolSizes: seq<DescriptorPoolSize>)
    | DescriptorSetInfo(pool: Handle, setLayout: Handle)

  /** A command recorded into a command buffer. */
  datatype Command =
    | PipelineBarrier(srcStageMask: Flags, dstStageMask: Flags, barrier: ImageMemoryBarrier)
    | CopyBuffer(src: Handle, dst: Handle, size: nat)
    | CopyBufferToImage(buffer: Handle, image: Handle, dstLayout: nat, region: BufferImageCopy)
    | BindPipeline(bindPoint: nat, pipeline: Handle)
    | SetViewport(viewportExtent: Extent2D)
    | SetScissor(offsetX: int, offsetY: int, scissorExtent: Extent2D)
    | BindDescriptorSets(setBindPoint: nat, layout: Handle, firstSet: nat, sets: seq<Handle>)
    | BindVertexBuffers(firstBinding: nat, buffers: seq<Handle>, offsets: seq<nat>)
    | BindIndexBuffer(indexBuffer: Handle, indexOffset: nat, indexType: nat)
    | DrawIndexed(indexCount: nat, instanceCount: nat, firstIndex: nat, vertexOffset: int, firstInstance: nat)

  datatype Binding = Binding(memory: Handle, offset: nat)

  /** The driver-side state the model observes. */
  datatype DriverState = DriverState(
    nextHandle: nat,
    live: set<Handle>,
    created: map<Handle, CreateInfo>,
    released: seq<Handle>,                       // vkDestroy* or vkFree* calls, in call order
    bindings: map<Handle, Binding>,              // vkBind*Memory
    mapped: set<Handle>,                         // memory objects currently mapped
    memory: map<Handle, seq<byte>>,               // host writes through a mapping
    submissions: seq<seq<Command>>,              // one-time submits, in order
    descriptorWrites: seq<seq<WriteDescriptorSet>>)

  /** Every handle ever returned is below `nextHandle`, and only those can be live. */
  ghost predicate WellFormed(s: DriverState) {
    && 0 < s.nextHandle
    && (forall h :: h in s.created ==> 0 < h < s.nextHandle)
    && s.live <= s.created.Keys
  }

  /**
   * `after` differs from `before` only by objects created since: earlier
   * objects keep their creation record, and every newly live handle is fresh.
   */
  ghost predicate Extends(before: DriverState, after: DriverState) {
    && after == before.(nextHandle := after.nextHandle, live := after.live, created := after.created)
    && before.nextHandle <= after.nextHandle
    && before.live <= after.live
    && (forall h :: h in before.created ==> h in after.created && after.created[h] == before.created[h])
    && (forall h :: h in after.live && h !in before.live ==> before.nextHandle <= h)
  }

  /** The driver state after one vkCreate* that returned `ok`. */
  ghost function AfterCreate(s: DriverState, info: CreateInfo, ok: bool): DriverState
  {
    if ok then s.(nextHandle := s.nextHandle + 1, live := s.live + {s.nextHandle}, created := s.created[s.nextHandle := info])
    else s
  }

  /** The driver state after vkDestroy* or vkFree* on each of `hs`, in order. */
  ghost function AfterRelease(s: DriverState, hs: seq<Handle>): DriverState
  {
    s.(live := s.live - (set h | h in hs), released := s.released + hs)
  }

  /**
   * The driver state after one vkAllocate* of `count` objects that returned
   * `ok`: on success they take the next `count` handles, all at once.
   */
  ghost function AfterCreateMany(s: DriverState, info: CreateInfo, count: nat, ok: bool): DriverState
  {
    if ok then s.(nextHandle := s.nextHandle + count,
                  live := s.live + (set h | h in HandleRange(s.nextHandle, count)),
                  created := s.created + (map h | h in HandleRange(s.nextHandle, count) :: info))
    else s
  }

  /** The handles `from`, `from + 1`, ..., `count` of them. */
  function HandleRange(from: Handle, count: nat): (hs: seq<Handle>)
    ensures |hs| == count && forall j :: 0 <= j < count ==> hs[j] == from + j
  {
    seq(count, j => from + j)
  }

  lemma NewHandleIsFresh(s: DriverState)
    requires WellFormed(s)
    ensures s.nextHandle != NULL_HANDLE && s.nextHandle !in s.created && s.nextHandle !in s.live
  {
  }

  class Driver {
    var st: DriverState

    ghost predicate Valid()
      reads this
    {
      WellFormed(st)
    }

    constructor ()
      ensures Valid()
      ensures st.live == {} && st.released == [] && st.submissions == []
    {
      st := DriverState(1, {}, map[], [], map[], {}, map[], [], []);
    }

    /** vkCreate* or vkAllocate* for one object; `ok` is whether it returned VK_SUCCESS. */
    method Create(info: CreateInfo, ok: bool) returns (h: Handle)
      requires Valid()
      modifies this
      ensures Valid()
      ensures ok ==> h == old(st.nextHandle) && h != NULL_HANDLE && h !in old(st.created)
      ensures ok ==> st == old(st).(nextHandle := h + 1, live := old(st.live) + {h}, created := old(st.created)[h := info])
      ensures !ok ==> h == NULL_HANDLE && st == old(st)
    {
      if ok {
        h := st.nextHandle;
        st := st.(nextHandle := h + 1, live := st.live + {h}, created := st.created[h := info]);
      } else {
        h := NULL_HANDLE;
      }
    }

    /**
     * vkAllocate* of `count` objects in one call: on success the handles
     * are consecutive and fresh; on failure every output is VK_NULL_HANDLE.
     */
    method CreateMany(info: CreateInfo, count: nat, ok: bool) returns (hs: seq<Handle>)
      requires Valid()
      modifies this
      ensures Valid()
      ensures ok ==> hs == HandleRange(old(st.nextHandle), count) && forall h :: h in hs ==> h != NULL_HANDLE && h !in old(st.created)
      ensures !ok ==> hs == seq(count, _ => NULL_HANDLE)
      ensures st == AfterCreateMany(old(st), info, count, ok)
    {
      if ok {
        var n := st.nextHandle;
        hs := HandleRange(n, count);
        st := st.(nextHandle := n + count,
                  live := st.live + (set h | h in hs),
                  created := st.created + (map h | h in hs :: info));
      } else {
        hs := seq(count, _ => NULL_HANDLE);
      }
    }

    /** vkDestroy* or vkFree*: the handle is no longer live and the call is recorded. */
    method Release(h: Handle)
      requires Valid()
      modifies this
      ensures Valid()
      ensures st == old(st).(live := old(st.live) - {h}, released := old(st.released) + [h])
    {
      st := st.(live := st.live - {h}, released := st.released + [h]);
    }

    /** vkDestroy* on every handle of `hs`, in order. */
    method ReleaseInOrder(hs: seq<Handle>)
      requires Valid()
      modifies this
      ensures Valid()
      ensures st == old(st).(live := old(st.live) - (set h | h in hs), released := old(st.released) + hs)
    {
      for i := 0 to |hs|
        invariant Valid()
        invariant st == old(st).(live := old(st.live) - (set h | h in hs[..i]), released := old(st.released) + hs[..i])
      {
        assert hs[..i + 1] == hs[..i] + [hs[i]];
        Release(hs[i]);
      }
      assert hs[..|hs|] == hs;
    }

    method BindMemory(resource: Handle, memory: Handle, offset: nat)
      requires Valid()
      modifies this
      ensures Valid()
      ensures st == old(st).(bindings := old(st.bindings)[resource := Binding(memory, offset)])
    {
      st := st.(bindings := st.bindings[resource := Binding(memory, offset)]);
    }

    method MapMemory(memory: Handle)
      requires Valid()
      modifies this
      ensures Valid()
      ensures st == old(st).(mapped := old(st.mapped) + {memory})
    {
      st := st.(mapped := st.mapped + {memory});
    }

    method UnmapMemory(memory: Handle)
      requires Valid()
      modifies this
      ensures Valid()
      ensures st == old(st).(mapped := old(st.mapped) - {memory})
    {
      st := st.(mapped := st.mapped - {memory});
    }

    /** A memcpy into mapped memory: the memory object now holds `data`. */
    method WriteMemory(memory: Handle, data: seq<byte>)
      requires Valid()
      modifies this
      ensures Valid()
      ensures st == old(st).(memory := old(st.memory)[memory := data])
    {
      st := st.(memory := st.memory[memory := data]);
    }

    /** vkQueueSubmit of one recorded command buffer followed by vkQueueWaitIdle. */
    method SubmitAndWait(commands: seq<Command>)
      requires Valid()
      modifies this
      ensures Valid()
      ensures st == old(st).(submissions := old(st.submissions) + [commands])
    {
      st := st.(submissions := st.submissions + [commands]);
    }

    method UpdateDescriptorSets(writes: seq<WriteDescriptorSet>)
      requires Valid()
      modifies this
      ensures Valid()
      ensures st == old(st).(descriptorWrites := old(st.descriptorWrites) + [writes])
    {
      st := st.(descriptorWrites := st.descriptorWrites + [writes]);
    }
  }

  /** A primary command buffer being recorded (vkCmd* calls append to it). */
  class CommandBuffer {
    var commands: seq<Command>

    constructor ()
      ensures commands == []
    {
      commands := [];
    }

    method Record(c: Command)
      modifies this
      ensures commands == old(commands) + [c]
    {
      commands := commands + [c];
    }
  }
}
