/**
 * GPU buffers: the product of BufferBuilder (create the VkBuffer, query its
 * memory requirements, pick a memory type, allocate, bind), the host and
 * transfer uploads, teardown, and the BufferDirector presets.
 */
module Buffers {
  import opened Vulkan
  import opened Devices

  /**
   * sizeof(UniformBufferObject): a model, a view and a projection matrix,
   * each a 4x4 matrix of 32-bit floats.
   */
  const UNIFORM_BUFFER_OBJECT_SIZE: nat := 3 * 16 * 4

  /** Properties of memory the host writes through a persistent or temporary mapping. */
  const HOST_VISIBLE_COHERENT: Flags := MEMORY_PROPERTY_HOST_VISIBLE | MEMORY_PROPERTY_HOST_COHERENT

  /** A buffer and the memory bound to it; `device` is the weak_ptr back to the device. */
  class Buffer {
    var device: Device?
    var handle: Handle
    var memory: Handle
    var size: nat

    /** A product not yet built: no device and no handles. */
    constructor ()
      ensures device == null && handle == NULL_HANDLE && memory == NULL_HANDLE && size == 0
    {
      device := null;
      handle := NULL_HANDLE;
      memory := NULL_HANDLE;
      size := 0;
    }

    /**
     * Maps the whole memory object, copies exactly `size` bytes of `source`
     * into it and unmaps it again; nothing else in the driver changes.
     */
    method CopyDataToMemory(drv: Driver, source: seq<byte>) returns (outcome: Outcome<()>)
      requires drv.Valid()
      requires size <= |source|                 // memcpy reads `size` bytes of the source
      modifies drv
      ensures drv.Valid()
      // the weak_ptr is locked and dereferenced without a check
      ensures !(device != null && device.alive) ==> outcome == Aborted(NullDereference) && drv.st == old(drv.st)
      ensures device != null && device.alive ==>
                && outcome == Returned(())
                && drv.st == old(drv.st).(memory := old(drv.st.memory)[memory := source[..size]],
                                          mapped := old(drv.st.mapped) - {memory})
    {
      if !(device != null && device.alive) {
        return Aborted(NullDereference);
      }
      outcome := Returned(());
      drv.MapMemory(memory);
      drv.WriteMemory(memory, source[..size]);
      drv.UnmapMemory(memory);
    }

    /**
     * One one-time submission holding a single copy of `size` bytes from
     * `source` into this buffer; the call returns once the queue is idle.
     */
    method TransferBufferToBuffer(drv: Driver, source: Handle) returns (outcome: Outcome<()>)
      requires drv.Valid()
      modifies drv
      ensures drv.Valid()
      ensures !(device != null && device.alive) ==> outcome == Aborted(NullDereference) && drv.st == old(drv.st)
      ensures device != null && device.alive ==>
                && outcome == Returned(())
                && drv.st == old(drv.st).(submissions := old(drv.st.submissions) + [[CopyBuffer(source, handle, size)]])
    {
      if !(device != null && device.alive) {
        return Aborted(NullDereference);
      }
      outcome := Returned(());
      device.SubmitOneTime(drv, [CopyBuffer(source, handle, size)]);
    }

    /** The destructor: the memory is freed before the buffer is destroyed. */
    method Destroy(drv: Driver) returns (outcome: Outcome<()>)
      requires drv.Valid()
      modifies drv
      ensures drv.Valid()
      ensures !(device != null && device.alive) ==> outcome == Aborted(NullDereference) && drv.st == old(drv.st)
      ensures device != null && device.alive ==>
                && outcome == Returned(())
                && drv.st == old(drv.st).(live := old(drv.st.live) - {memory, handle},
                                          released := old(drv.st.released) + [memory, handle])
    {
      if !(device != null && device.alive) {
        return Aborted(NullDereference);
      }
      outcome := Returned(());
      drv.Release(memory);
      drv.Release(handle);
    }
  }

  /**
   * BufferBuilder. Its declaration is not part of this model; the builder
   * holds the configuration and the product under construction, and the
   * size and device it is given are recorded on the product as well.
   */
  class BufferBuilder {
    var device: Device?
    var size: nat
    var usage: Flags
    var properties: Flags
    var product: Buffer?

    constructor ()
      ensures device == null && size == 0 && usage == 0 && properties == 0
      ensures product != null && fresh(product)
      ensures product.device == null && product.handle == NULL_HANDLE && product.memory == NULL_HANDLE && product.size == 0
    {
      device := null;
      size := 0;
      usage := 0;
      properties := 0;
      product := new Buffer();
    }

    method SetDevice(device: Device?)
      modifies this, product
      ensures this.device == device && product == old(product)
      ensures product != null ==> product.device == device
      ensures size == old(size) && usage == old(usage) && properties == old(properties)
      ensures product != null ==> product.handle == old(product.handle) && product.memory == old(product.memory)
                                  && product.size == old(product.size)
    {
      this.device := device;
      if product != null {
        product.device := device;
      }
    }

    method SetSize(size: nat)
      modifies this, product
      ensures this.size == size && product == old(product)
      ensures product != null ==> product.size == size
      ensures device == old(device) && usage == old(usage) && properties == old(properties)
      ensures product != null ==> product.handle == old(product.handle) && product.memory == old(product.memory)
                                  && product.device == old(product.device)
    {
      this.size := size;
      if product != null {
        product.size := size;
      }
    }

    method SetUsage(usage: Flags)
      modifies this
      ensures this.usage == usage
      ensures device == old(device) && size == old(size) && properties == old(properties) && product == old(product)
    {
      this.usage := usage;
    }

    method SetProperties(properties: Flags)
      modifies this
      ensures this.properties == properties
      ensures device == old(device) && size == old(size) && usage == old(usage) && product == old(product)
    {
      this.properties := properties;
    }

    /**
     * build(). `createOk` and `allocOk` are the results of vkCreateBuffer and
     * vkAllocateMemory, `requirements` what vkGetBufferMemoryRequirements
     * reports. A failure of either call yields a null product that stays
     * with the builder; a memory type that cannot be found throws at
     * `value()`. Neither path destroys the buffer handle already created.
     */
    method Build(drv: Driver, createOk: bool, requirements: MemoryRequirements, allocOk: bool)
      returns (outcome: Outcome<Buffer?>)
      requires drv.Valid()
      requires device != null && device.alive   // assert(m_device.lock())
      modifies this, product, drv
      ensures drv.Valid()
      ensures device == old(device) && size == old(size) && usage == old(usage) && properties == old(properties)
      ensures old(product) != null ==> old(product).device == old(product.device) && old(product).size == old(product.size)
      // building a second time without a product dereferences null
      ensures old(product) == null ==> outcome == Aborted(NullDereference) && drv.st == old(drv.st)
      // otherwise the driver sees exactly the creation, allocation and binding that succeeded
      ensures old(product) != null ==>
                var memoryType := FirstSuitableMemoryType(device.physical.memoryTypes, requirements.memoryTypeBits, properties, 0);
                && old(product).handle == (if createOk then old(drv.st.nextHandle) else NULL_HANDLE)
                && drv.st == BufferCreated(old(drv.st), BufferInfo(size, usage, SHARING_MODE_EXCLUSIVE), requirements.size,
                                           memoryType, createOk, allocOk)
                && (!createOk || (memoryType.Some? && !allocOk) ==> outcome == Returned(null) && product == old(product))
                && (createOk && memoryType.None? ==> outcome == Aborted(BadOptionalAccess))
                && (createOk && memoryType.Some? && allocOk ==>
                      && outcome == Returned(old(product)) && product == null
                      && old(product).memory == old(drv.st.nextHandle) + 1)
    {
      if product == null {
        return Aborted(NullDereference);
      }
      var buffer := product;
      var handle, memory := CreateAndBindBuffer(drv, device.physical.memoryTypes, BufferInfo(size, usage, SHARING_MODE_EXCLUSIVE),
                                                requirements, properties, createOk, allocOk);
      buffer.handle := handle;
      if !createOk {
        return Returned(null);
      }
      if memory.Aborted? {
        return Aborted(memory.failure);
      }
      buffer.memory := memory.value;
      if !allocOk {
        return Returned(null);
      }

      product := null;
      outcome := Returned(buffer);
    }
  }

  /**
   * The driver state after creating a buffer from `info` and then, when
   * that succeeded and a memory type was found, allocating `allocationSize`
   * bytes of that type and binding them to the buffer at offset 0.
   */
  ghost function BufferCreated(s: DriverState, info: CreateInfo, allocationSize: nat, memoryType: Option<nat>,
                               createOk: bool, allocOk: bool): DriverState
  {
    var h := s.nextHandle;
    if !createOk then s
    else if memoryType.None? || !allocOk then
      s.(nextHandle := h + 1, live := s.live + {h}, created := s.created[h := info])
    else
      s.(nextHandle := h + 2, live := s.live + {h, h + 1},
         created := s.created[h := info][h + 1 := MemoryInfo(allocationSize, memoryType.value)],
         bindings := s.bindings[h := Binding(h + 1, 0)])
  }

  /**
   * The driver calls of build(): create the buffer, then, when that
   * succeeded, pick a memory type, allocate and bind. `memory` is the
   * allocation, VK_NULL_HANDLE when a step failed, or the `value()` throw.
   */
  method CreateAndBindBuffer(drv: Driver, types: MemoryTypeList, info: CreateInfo, requirements: MemoryRequirements,
                             properties: Flags, createOk: bool, allocOk: bool)
    returns (handle: Handle, memory: Outcome<Handle>)
    requires drv.Valid()
    modifies drv
    ensures drv.Valid()
    ensures var memoryType := FirstSuitableMemoryType(types, requirements.memoryTypeBits, properties, 0);
            && drv.st == BufferCreated(old(drv.st), info, requirements.size, memoryType, createOk, allocOk)
            && handle == (if createOk then old(drv.st.nextHandle) else NULL_HANDLE)
            && (createOk && memoryType.None? ==> memory == Aborted(BadOptionalAccess))
            && (createOk && memoryType.Some? ==> memory == Returned(if allocOk then handle + 1 else NULL_HANDLE))
  {
    handle := drv.Create(info, createOk);
    if !createOk {
      return handle, Returned(NULL_HANDLE);
    }
    memory := AllocateAndBind(drv, types, handle, requirements, properties, allocOk);
  }

  /**
   * The constructor-style Buffer(device, size, usage, properties) the older
   * revision's mesh and render state use. Its body is not part of this
   * model: it is taken to perform build()'s steps, every one succeeding,
   * with the memory type `findMemoryTypeIndex` picks.
   */
  method ConstructBuffer(drv: Driver, device: Device, size: nat, usage: Flags, properties: Flags,
                         requirements: MemoryRequirements)
    returns (buffer: Buffer)
    requires drv.Valid()
    requires device.alive
    requires FirstSuitableMemoryType(device.physical.memoryTypes, requirements.memoryTypeBits, properties, 0).Some?
    modifies drv
    ensures drv.Valid()
    ensures fresh(buffer) && buffer.device == device && buffer.size == size
    ensures buffer.handle == old(drv.st.nextHandle) && buffer.memory == buffer.handle + 1
    ensures drv.st == old(drv.st).(
              nextHandle := buffer.memory + 1,
              live := old(drv.st.live) + {buffer.handle, buffer.memory},
              created := old(drv.st.created)[buffer.handle := BufferInfo(size, usage, SHARING_MODE_EXCLUSIVE)]
                           [buffer.memory := MemoryInfo(requirements.size,
                              FirstSuitableMemoryType(device.physical.memoryTypes, requirements.memoryTypeBits, properties, 0).value)],
              bindings := old(drv.st.bindings)[buffer.handle := Binding(buffer.memory, 0)])
  {
    buffer := new Buffer();
    buffer.device := device;
    buffer.size := size;
    buffer.handle := drv.Create(BufferInfo(size, usage, SHARING_MODE_EXCLUSIVE), true);
    var memory := AllocateAndBind(drv, device.physical.memoryTypes, buffer.handle, requirements, properties, true);
    buffer.memory := memory.value;
  }

  /** A usage and memory-property preset chosen by BufferDirector. */
  datatype BufferKind = Staging | VertexData | IndexData | UniformData

  /**
   * Each director preset: the usage and memory properties it sets, and, for
   * uniform buffers, the size.
   */
  method CreatePresetBuilder(kind: BufferKind, builder: BufferBuilder)
    modifies builder, builder.product
    ensures builder.usage == PresetUsage(kind) && builder.properties == PresetProperties(kind)
    ensures kind == UniformData ==> builder.size == UNIFORM_BUFFER_OBJECT_SIZE
                                    && (builder.product != null ==> builder.product.size == UNIFORM_BUFFER_OBJECT_SIZE)
    ensures kind != UniformData ==> builder.size == old(builder.size)
    ensures builder.device == old(builder.device) && builder.product == old(builder.product)
  {
    match kind
    case Staging =>
      builder.SetUsage(BUFFER_USAGE_TRANSFER_SRC);
      builder.SetProperties(HOST_VISIBLE_COHERENT);
    case VertexData =>
      builder.SetUsage(BUFFER_USAGE_TRANSFER_DST | BUFFER_USAGE_VERTEX_BUFFER);
      builder.SetProperties(MEMORY_PROPERTY_DEVICE_LOCAL);
    case IndexData =>
      builder.SetUsage(BUFFER_USAGE_TRANSFER_DST | BUFFER_USAGE_INDEX_BUFFER);
      builder.SetProperties(MEMORY_PROPERTY_DEVICE_LOCAL);
    case UniformData =>
      builder.SetSize(UNIFORM_BUFFER_OBJECT_SIZE);
      builder.SetUsage(BUFFER_USAGE_UNIFORM_BUFFER);
      builder.SetProperties(HOST_VISIBLE_COHERENT);
  }

  /** The usage flags of each preset. */
  function PresetUsage(kind: BufferKind): (usage: Flags)
    ensures usage & BUFFER_USAGE_TRANSFER_SRC != 0 <==> kind == Staging
    ensures usage & BUFFER_USAGE_TRANSFER_DST != 0 <==> kind == VertexData || kind == IndexData
    ensures usage & BUFFER_USAGE_VERTEX_BUFFER != 0 <==> kind == VertexData
    ensures usage & BUFFER_USAGE_INDEX_BUFFER != 0 <==> kind == IndexData
    ensures usage & BUFFER_USAGE_UNIFORM_BUFFER != 0 <==> kind == UniformData
  {
    match kind
    case Staging => BUFFER_USAGE_TRANSFER_SRC
    case VertexData => BUFFER_USAGE_TRANSFER_DST | BUFFER_USAGE_VERTEX_BUFFER
    case IndexData => BUFFER_USAGE_TRANSFER_DST | BUFFER_USAGE_INDEX_BUFFER
    case UniformData => BUFFER_USAGE_UNIFORM_BUFFER
  }

  /** The memory properties of each preset: host-writable, or device-local, never both. */
  function PresetProperties(kind: BufferKind): (properties: Flags)
    ensures properties & MEMORY_PROPERTY_DEVICE_LOCAL != 0 <==> kind == VertexData || kind == IndexData
    ensures properties & HOST_VISIBLE_COHERENT == HOST_VISIBLE_COHERENT <==> kind == Staging || kind == UniformData
  {
    match kind
    case Staging => HOST_VISIBLE_COHERENT
    case VertexData => MEMORY_PROPERTY_DEVICE_LOCAL
    case IndexData => MEMORY_PROPERTY_DEVICE_LOCAL
    case UniformData => HOST_VISIBLE_COHERENT
  }
}
