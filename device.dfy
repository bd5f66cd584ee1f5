/**
 * The logical device wrapper: physical-device queries (memory-type and
 * queue-family selection), logical-device creation with one queue per
 * distinct family, the two command pools, and teardown.
 */
module Devices {
  import opened Vulkan

  /** VK_MAX_MEMORY_TYPES: a physical device never reports more memory types. */
  const MAX_MEMORY_TYPES: nat := 32

  /** The propertyFlags of each memory type, as vkGetPhysicalDeviceMemoryProperties reports them. */
  type MemoryTypeList = s: seq<Flags> | |s| <= MAX_MEMORY_TYPES witness []

  /** One queue family: its queueFlags, and whether it can present to the device's surface. */
  datatype QueueFamily = QueueFamily(queueFlags: Flags, presentSupport: bool)

  /** What the physical-device queries report. */
  datatype PhysicalDevice = PhysicalDevice(memoryTypes: MemoryTypeList, queueFamilies: seq<QueueFamily>)

  /** A queue obtained with vkGetDeviceQueue(family, queueIndex). */
  datatype Queue = Queue(family: nat, queueIndex: nat)

  // ---------------------------------------------------------------------
  // Memory-type selection
  // ---------------------------------------------------------------------

  /**
   * Memory type `i` may back a resource whose requirements allow the types in
   * `typeBits` and whose user asks for `properties`: bit i of typeBits is set
   * and the type's flags include every requested property.
   */
  predicate MemoryTypeSuitable(types: MemoryTypeList, typeBits: Flags, properties: Flags, i: nat)
  {
    i < |types| && AllowsType(typeBits, i) && HasProperties(types[i], properties)
  }

  /** Bit i of a memoryTypeBits mask is set. */
  predicate AllowsType(typeBits: Flags, i: nat)
    requires i < MAX_MEMORY_TYPES
  {
    typeBits & Bit(i) != 0
  }

  /** A memory type's propertyFlags include every flag of `properties`. */
  predicate HasProperties(flags: Flags, properties: Flags)
  {
    flags & properties == properties
  }

  /** `1 << i` for a bit position below 32. */
  function Bit(i: nat): bv32
    requires i < 32
  {
    (1 as bv32) << i
  }

  /** The first suitable memory type at or after `from`. */
  function FirstSuitableMemoryType(types: MemoryTypeList, typeBits: Flags, properties: Flags, from: nat): Option<nat>
    decreases |types| - from
  {
    if from >= |types| then None
    else if MemoryTypeSuitable(types, typeBits, properties, from) then Some(from)
    else FirstSuitableMemoryType(types, typeBits, properties, from + 1)
  }

  /** The search yields the lowest suitable index, and nothing exactly when no index qualifies. */
  lemma {:induction false} FirstSuitableMemoryTypeIsLowest(types: MemoryTypeList, typeBits: Flags, properties: Flags, from: nat)
    ensures var r := FirstSuitableMemoryType(types, typeBits, properties, from);
      && (r.Some? ==> from <= r.value && MemoryTypeSuitable(types, typeBits, properties, r.value)
                      && forall j :: from <= j < r.value ==> !MemoryTypeSuitable(types, typeBits, properties, j))
      && (r.None? <==> forall j :: from <= j < |types| ==> !MemoryTypeSuitable(types, typeBits, properties, j))
    decreases |types| - from
  {
    if from < |types| && !MemoryTypeSuitable(types, typeBits, properties, from) {
      FirstSuitableMemoryTypeIsLowest(types, typeBits, properties, from + 1);
    }
  }

  // ---------------------------------------------------------------------
  // Queue-family selection
  // ---------------------------------------------------------------------

  predicate HasCapability(families: seq<QueueFamily>, capabilities: Flags, i: nat)
  {
    i < |families| && families[i].queueFlags & capabilities != 0
  }

  /** The first family at or after `from` sharing a bit with `capabilities`. */
  function FirstQueueFamily(families: seq<QueueFamily>, capabilities: Flags, from: nat): Option<nat>
    decreases |families| - from
  {
    if from >= |families| then None
    else if HasCapability(families, capabilities, from) then Some(from)
    else FirstQueueFamily(families, capabilities, from + 1)
  }

  lemma {:induction false} FirstQueueFamilyIsLowest(families: seq<QueueFamily>, capabilities: Flags, from: nat)
    ensures var r := FirstQueueFamily(families, capabilities, from);
      && (r.Some? ==> from <= r.value && HasCapability(families, capabilities, r.value)
                      && forall j :: from <= j < r.value ==> !HasCapability(families, capabilities, j))
      && (r.None? <==> forall j :: from <= j < |families| ==> !HasCapability(families, capabilities, j))
    decreases |families| - from
  {
    if from < |families| && !HasCapability(families, capabilities, from) {
      FirstQueueFamilyIsLowest(families, capabilities, from + 1);
    }
  }

  predicate CanPresent(families: seq<QueueFamily>, i: nat)
  {
    i < |families| && families[i].presentSupport
  }

  /** The first family at or after `from` that reports surface support. */
  function FirstPresentFamily(families: seq<QueueFamily>, from: nat): Option<nat>
    decreases |families| - from
  {
    if from >= |families| then None
    else if CanPresent(families, from) then Some(from)
    else FirstPresentFamily(families, from + 1)
  }

  lemma {:induction false} FirstPresentFamilyIsLowest(families: seq<QueueFamily>, from: nat)
    ensures var r := FirstPresentFamily(families, from);
      && (r.Some? ==> from <= r.value && CanPresent(families, r.value)
                      && forall j :: from <= j < r.value ==> !CanPresent(families, j))
      && (r.None? <==> forall j :: from <= j < |families| ==> !CanPresent(families, j))
    decreases |families| - from
  {
    if from < |families| && !CanPresent(families, from) {
      FirstPresentFamilyIsLowest(families, from + 1);
    }
  }

  // ---------------------------------------------------------------------
  // Queue create-infos: one per distinct family
  // ---------------------------------------------------------------------

  predicate StrictlyIncreasing(s: seq<nat>)
  {
    forall i, j :: 0 <= i < j < |s| ==> s[i] < s[j]
  }

  /**
   * The contents of the std::set of family indices the device is created
   * with, in the set's (ascending) iteration order: the graphics family and,
   * when there is one, the present family, each once.
   */
  function UniqueQueueFamilies(graphics: Option<nat>, present: Option<nat>): (r: seq<nat>)
    ensures StrictlyIncreasing(r)
    ensures forall f :: f in r <==> Some(f) == graphics || Some(f) == present
    ensures graphics.Some? && present.Some? ==> (|r| == 1 <==> graphics == present)
  {
    match (graphics, present)
    case (None, None) => []
    case (Some(g), None) => [g]
    case (None, Some(p)) => [p]
    case (Some(g), Some(p)) =>
      if g < p then [g, p] else if p < g then [p, g] else [g]
  }

  /** `infos` holds one single-queue entry per family of `families`, in the same order. */
  predicate OneQueuePerFamily(infos: seq<QueueCreateInfo>, families: seq<nat>)
  {
    && |infos| == |families|
    && forall i :: 0 <= i < |infos| ==> infos[i] == QueueCreateInfo(families[i], 1)
  }

  /** The loop over the std::set: one entry with a single queue per distinct family. */
  method QueueCreateInfos(graphics: Option<nat>, present: Option<nat>) returns (infos: seq<QueueCreateInfo>)
    ensures OneQueuePerFamily(infos, UniqueQueueFamilies(graphics, present))
  {
    var families := UniqueQueueFamilies(graphics, present);
    infos := [];
    for i := 0 to |families|
      invariant OneQueuePerFamily(infos, families[..i])
    {
      infos := infos + [QueueCreateInfo(families[i], 1)];
    }
    assert families[..|families|] == families;
  }

  // ---------------------------------------------------------------------
  // The searches over the physical device's reports
  // ---------------------------------------------------------------------

  /** findMemoryTypeIndex: the lowest memory type allowed by the requirements that has every requested property. */
  method FindMemoryTypeIndex(types: MemoryTypeList, requirements: MemoryRequirements, properties: Flags) returns (r: Option<nat>)
    ensures r == FirstSuitableMemoryType(types, requirements.memoryTypeBits, properties, 0)
    ensures r.Some? ==> MemoryTypeSuitable(types, requirements.memoryTypeBits, properties, r.value)
    ensures r.Some? ==> forall j :: 0 <= j < r.value ==> !MemoryTypeSuitable(types, requirements.memoryTypeBits, properties, j)
    ensures r.None? <==> forall j :: 0 <= j < |types| ==> !MemoryTypeSuitable(types, requirements.memoryTypeBits, properties, j)
  {
    var i := 0;
    while i < |types|
      invariant i <= |types|
      invariant FirstSuitableMemoryType(types, requirements.memoryTypeBits, properties, i)
             == FirstSuitableMemoryType(types, requirements.memoryTypeBits, properties, 0)
    {
      var rightType := AllowsType(requirements.memoryTypeBits, i);
      var rightFlag := HasProperties(types[i], properties);
      if rightType && rightFlag {
        r := Some(i);
        FirstSuitableMemoryTypeIsLowest(types, requirements.memoryTypeBits, properties, 0);
        return;
      }
      i := i + 1;
    }
    r := None;
    FirstSuitableMemoryTypeIsLowest(types, requirements.memoryTypeBits, properties, 0);
  }

  /** findQueueFamilyIndex: the lowest family whose queueFlags share a bit with `capabilities`. */
  method FindQueueFamilyIndex(families: seq<QueueFamily>, capabilities: Flags) returns (r: Option<nat>)
    ensures r == FirstQueueFamily(families, capabilities, 0)
    ensures r.Some? ==> HasCapability(families, capabilities, r.value)
    ensures r.Some? ==> forall j :: 0 <= j < r.value ==> !HasCapability(families, capabilities, j)
    ensures r.None? <==> forall j :: 0 <= j < |families| ==> !HasCapability(families, capabilities, j)
  {
    var i := 0;
    while i < |families|
      invariant i <= |families|
      invariant FirstQueueFamily(families, capabilities, i) == FirstQueueFamily(families, capabilities, 0)
    {
      if families[i].queueFlags & capabilities != 0 {
        r := Some(i);
        FirstQueueFamilyIsLowest(families, capabilities, 0);
        return;
      }
      i := i + 1;
    }
    r := None;
    FirstQueueFamilyIsLowest(families, capabilities, 0);
  }

  /** findPresentQueueFamilyIndex: nothing without a surface, else the lowest family that can present to it. */
  method FindPresentQueueFamilyIndex(families: seq<QueueFamily>, hasSurface: bool) returns (r: Option<nat>)
    ensures !hasSurface ==> r == None
    ensures hasSurface ==> r == FirstPresentFamily(families, 0)
    ensures r.Some? ==> CanPresent(families, r.value)
    ensures r.Some? ==> forall j :: 0 <= j < r.value ==> !CanPresent(families, j)
    ensures hasSurface && r.None? ==> forall j :: 0 <= j < |families| ==> !CanPresent(families, j)
  {
    if !hasSurface {
      return None;
    }
    var i := 0;
    while i < |families|
      invariant i <= |families|
      invariant FirstPresentFamily(families, i) == FirstPresentFamily(families, 0)
    {
      if families[i].presentSupport {
        r := Some(i);
        FirstPresentFamilyIsLowest(families, 0);
        return;
      }
      i := i + 1;
    }
    r := None;
    FirstPresentFamilyIsLowest(families, 0);
  }

  /**
   * The memory step shared by buffer and image creation: pick the first
   * suitable memory type for the reported requirements (`value()` throws
   * when there is none), allocate the required size from it (`allocOk` is
   * the result of vkAllocateMemory; a failure only returns early), and bind
   * the allocation to `resource` at offset 0.
   */
  method AllocateAndBind(drv: Driver, types: MemoryTypeList, resource: Handle, requirements: MemoryRequirements,
                         properties: Flags, allocOk: bool)
    returns (outcome: Outcome<Handle>)
    requires drv.Valid()
    modifies drv
    ensures drv.Valid()
    ensures FirstSuitableMemoryType(types, requirements.memoryTypeBits, properties, 0).None? ==>
              outcome == Aborted(BadOptionalAccess) && drv.st == old(drv.st)
    ensures FirstSuitableMemoryType(types, requirements.memoryTypeBits, properties, 0).Some? && !allocOk ==>
              outcome == Returned(NULL_HANDLE) && drv.st == old(drv.st)
    ensures FirstSuitableMemoryType(types, requirements.memoryTypeBits, properties, 0).Some? && allocOk ==>
              var memoryType := FirstSuitableMemoryType(types, requirements.memoryTypeBits, properties, 0).value;
              && outcome == Returned(old(drv.st.nextHandle))
              && drv.st == old(drv.st).(nextHandle := outcome.value + 1, live := old(drv.st.live) + {outcome.value},
                                        created := old(drv.st.created)[outcome.value := MemoryInfo(requirements.size, memoryType)],
                                        bindings := old(drv.st.bindings)[resource := Binding(outcome.value, 0)])
  {
    var memoryTypeIndex := FindMemoryTypeIndex(types, requirements, properties);
    if memoryTypeIndex.None? {
      return Aborted(BadOptionalAccess);
    }
    var memory := drv.Create(MemoryInfo(requirements.size, memoryTypeIndex.value), allocOk);
    if !allocOk {
      return Returned(NULL_HANDLE);
    }
    drv.BindMemory(resource, memory, 0);
    outcome := Returned(memory);
  }

  /**
   * A logical device. `alive` stands for the lifetime of the shared_ptr that
   * owns it: the weak_ptrs held elsewhere lock() successfully exactly while it
   * is true.
   */
  class Device {
    const physical: PhysicalDevice
    const hasSurface: bool

    var graphicsFamilyIndex: Option<nat>
    var presentFamilyIndex: Option<nat>

    var handle: Handle
    var graphicsQueue: Option<Queue>
    var presentQueue: Option<Queue>
    var commandPool: Handle
    var commandPoolTransient: Handle

    var alive: bool

    /** The graphics family is always looked up; the present family only with a surface. */
    constructor (physical: PhysicalDevice, hasSurface: bool)
      ensures this.physical == physical && this.hasSurface == hasSurface
      ensures graphicsFamilyIndex == FirstQueueFamily(physical.queueFamilies, QUEUE_GRAPHICS, 0)
      ensures presentFamilyIndex == if hasSurface then FirstPresentFamily(physical.queueFamilies, 0) else None
      ensures handle == NULL_HANDLE && graphicsQueue == None && presentQueue == None
      ensures commandPool == NULL_HANDLE && commandPoolTransient == NULL_HANDLE
      ensures alive
    {
      this.physical := physical;
      this.hasSurface := hasSurface;
      handle := NULL_HANDLE;
      graphicsQueue := None;
      presentQueue := None;
      commandPool := NULL_HANDLE;
      commandPoolTransient := NULL_HANDLE;
      alive := true;
      new;
      graphicsFamilyIndex := FindQueueFamilyIndex(physical.queueFamilies, QUEUE_GRAPHICS);
      presentFamilyIndex := FindPresentQueueFamilyIndex(physical.queueFamilies, hasSurface);
    }

    /**
     * Creates the logical device with one queue per distinct family, fetches
     * queue 0 of the graphics (and, with a surface, the present) family, then
     * the resettable and the transient command pool. Each failed creation is
     * only reported and ends the initialisation; `value()` on a missing
     * family index throws.
     */
    method InitLogicalDevice(drv: Driver, deviceOk: bool, poolOk: bool, transientOk: bool) returns (outcome: Outcome<()>)
      requires drv.Valid()
      modifies this, drv
      ensures drv.Valid()
      ensures graphicsFamilyIndex == old(graphicsFamilyIndex) && presentFamilyIndex == old(presentFamilyIndex)
      ensures alive == old(alive)
      // device creation failed: nothing else happens
      ensures !deviceOk ==> outcome == Returned(()) && drv.st == old(drv.st) && handle == old(handle)
                            && graphicsQueue == old(graphicsQueue) && presentQueue == old(presentQueue)
                            && commandPool == old(commandPool) && commandPoolTransient == old(commandPoolTransient)
      // the device is created from one single-queue entry per distinct family
      ensures deviceOk ==> handle == old(drv.st.nextHandle) && handle in drv.st.live
      ensures deviceOk ==> drv.st.created[handle].DeviceInfo?
                           && OneQueuePerFamily(drv.st.created[handle].queueCreateInfos,
                                                UniqueQueueFamilies(graphicsFamilyIndex, presentFamilyIndex))
      // a missing family index throws before any command pool
      ensures deviceOk && (graphicsFamilyIndex.None? || (hasSurface && presentFamilyIndex.None?))
              ==> outcome == Aborted(BadOptionalAccess) && drv.st.nextHandle == handle + 1
      ensures outcome.Returned? && deviceOk ==> graphicsFamilyIndex.Some? && (hasSurface ==> presentFamilyIndex.Some?)
      ensures outcome.Returned? && deviceOk ==>
                && graphicsQueue == Some(Queue(graphicsFamilyIndex.value, 0))
                && (hasSurface ==> presentQueue == Some(Queue(presentFamilyIndex.value, 0)))
                && (!hasSurface ==> presentQueue == old(presentQueue))
      // the resettable pool comes first; its failure stops before the transient pool
      ensures outcome.Returned? && deviceOk && !poolOk ==>
                commandPool == NULL_HANDLE && commandPoolTransient == old(commandPoolTransient) && drv.st.nextHandle == handle + 1
      ensures outcome.Returned? && deviceOk && poolOk ==>
                && commandPool == handle + 1 && commandPool in drv.st.live
                && drv.st.created[commandPool] == CommandPoolInfo(COMMAND_POOL_CREATE_RESET_COMMAND_BUFFER, graphicsFamilyIndex.value)
      ensures outcome.Returned? && deviceOk && poolOk && !transientOk ==>
                commandPoolTransient == NULL_HANDLE && drv.st.nextHandle == handle + 2
      ensures outcome.Returned? && deviceOk && poolOk && transientOk ==>
                && commandPoolTransient == handle + 2 && commandPoolTransient in drv.st.live
                && drv.st.created[commandPoolTransient] == CommandPoolInfo(COMMAND_POOL_CREATE_TRANSIENT, graphicsFamilyIndex.value)
      // nothing is released, bound, written or submitted
      ensures drv.st.released == old(drv.st.released) && drv.st.submissions == old(drv.st.submissions)
    {
      var queueCreateInfos := QueueCreateInfos(graphicsFamilyIndex, presentFamilyIndex);
      var h := drv.Create(DeviceInfo(queueCreateInfos), deviceOk);
      if !deviceOk {
        return Returned(());
      }
      handle := h;

      if graphicsFamilyIndex.None? {
        return Aborted(BadOptionalAccess);
      }
      graphicsQueue := Some(Queue(graphicsFamilyIndex.value, 0));
      if hasSurface {
        if presentFamilyIndex.None? {
          return Aborted(BadOptionalAccess);
        }
        presentQueue := Some(Queue(presentFamilyIndex.value, 0));
      }

      CreateCommandPools(drv, graphicsFamilyIndex.value, poolOk, transientOk);
      outcome := Returned(());
    }

    /**
     * The last two steps of initLogicalDevice: the resettable pool, then, only
     * if that succeeded, the transient pool, both on the graphics family.
     */
    method CreateCommandPools(drv: Driver, family: nat, poolOk: bool, transientOk: bool)
      requires drv.Valid()
      modifies this`commandPool, this`commandPoolTransient, drv
      ensures drv.Valid()
      ensures !poolOk ==> commandPool == NULL_HANDLE && commandPoolTransient == old(commandPoolTransient)
                          && drv.st == old(drv.st)
      ensures poolOk ==> commandPool == old(drv.st.nextHandle)
      ensures poolOk && !transientOk ==>
                && commandPoolTransient == NULL_HANDLE
                && drv.st == old(drv.st).(nextHandle := commandPool + 1, live := old(drv.st.live) + {commandPool},
                                          created := old(drv.st.created)[commandPool := CommandPoolInfo(COMMAND_POOL_CREATE_RESET_COMMAND_BUFFER, family)])
      ensures poolOk && transientOk ==>
                && commandPoolTransient == commandPool + 1
                && drv.st == old(drv.st).(nextHandle := commandPool + 2, live := old(drv.st.live) + {commandPool, commandPoolTransient},
                                          created := old(drv.st.created)[commandPool := CommandPoolInfo(COMMAND_POOL_CREATE_RESET_COMMAND_BUFFER, family)]
                                                                        [commandPoolTransient := CommandPoolInfo(COMMAND_POOL_CREATE_TRANSIENT, family)])
    {
      commandPool := drv.Create(CommandPoolInfo(COMMAND_POOL_CREATE_RESET_COMMAND_BUFFER, family), poolOk);
      if !poolOk {
        return;
      }
      commandPoolTransient := drv.Create(CommandPoolInfo(COMMAND_POOL_CREATE_TRANSIENT, family), transientOk);
    }

    /**
     * One-time submission on the graphics queue (cmdBeginOneTimeSubmit, the
     * caller's recording, cmdEndOneTimeSubmit): the recorded commands are
     * submitted as one batch and the queue is waited on.
     */
    method SubmitOneTime(drv: Driver, commands: seq<Command>)
      requires drv.Valid()
      modifies drv
      ensures drv.Valid()
      ensures drv.st == old(drv.st).(submissions := old(drv.st.submissions) + [commands])
    {
      drv.SubmitAndWait(commands);
    }

    /** The destructor: persistent pool, then transient pool, then the device itself. */
    method Destroy(drv: Driver)
      requires drv.Valid()
      requires handle != NULL_HANDLE   // the device handle is dereferenced
      modifies this, drv
      ensures drv.Valid()
      ensures drv.st == old(drv.st).(live := old(drv.st.live) - {old(commandPool), old(commandPoolTransient), old(handle)},
                                     released := old(drv.st.released) + [old(commandPool), old(commandPoolTransient), old(handle)])
      ensures !alive
      ensures handle == old(handle) && commandPool == old(commandPool) && commandPoolTransient == old(commandPoolTransient)
    {
      drv.Release(commandPool);
      drv.Release(commandPoolTransient);
      drv.Release(handle);
      alive := false;
    }
  }
}
