/**
 * The per-object render state: a descriptor pool, and per frame in flight
 * one descriptor set and one persistently mapped uniform buffer; the
 * pipeline that draws the object and the mesh it draws. Its builder
 * creates all of these, and writes each set's uniform buffer and texture.
 */
module RenderStates {
  import opened Vulkan
  import opened Devices
  import opened Buffers
  import opened Pipelines
  import opened Meshes
  import opened Textures
  import opened Uniforms

  // ---------------------------------------------------------------------
  // Descriptor pool sizes and the descriptors the sets take
  // ---------------------------------------------------------------------

  /** How many descriptors of `descriptorType` a pool created with these sizes holds. */
  function Capacity(poolSizes: seq<DescriptorPoolSize>, descriptorType: nat): nat
  {
    if |poolSizes| == 0 then 0
    else (if poolSizes[0].descriptorType == descriptorType then poolSizes[0].descriptorCount else 0)
         + Capacity(poolSizes[1..], descriptorType)
  }

  /** How many descriptors of `descriptorType` a list of writes fills. */
  function WrittenDescriptors(writes: seq<WriteDescriptorSet>, descriptorType: nat): nat
  {
    if |writes| == 0 then 0
    else (if writes[0].descriptorType == descriptorType then writes[0].descriptorCount else 0)
         + WrittenDescriptors(writes[1..], descriptorType)
  }

  lemma {:induction false} CapacityAppend(a: seq<DescriptorPoolSize>, b: seq<DescriptorPoolSize>, descriptorType: nat)
    ensures Capacity(a + b, descriptorType) == Capacity(a, descriptorType) + Capacity(b, descriptorType)
  {
    if |a| == 0 {
      assert a + b == b;
    } else {
      assert (a + b)[1..] == a[1..] + b;
      CapacityAppend(a[1..], b, descriptorType);
    }
  }

  /** The pool sizes the director adds: one uniform buffer and one combined image sampler per frame in flight. */
  function DirectorPoolSizes(frameInFlightCount: nat): seq<DescriptorPoolSize>
  {
    [DescriptorPoolSize(DESCRIPTOR_TYPE_UNIFORM_BUFFER, frameInFlightCount),
     DescriptorPoolSize(DESCRIPTOR_TYPE_COMBINED_IMAGE_SAMPLER, frameInFlightCount)]
  }

  /** The pool sizes the older revision's build() creates its pool with, whatever was added. */
  const LEGACY_POOL_SIZES: seq<DescriptorPoolSize> := []

  /**
   * The two writes build() gives one descriptor set: its uniform buffer
   * (the whole MVP block) at binding 0, the texture at binding 1.
   */
  function SetWrites(descriptorSet: Handle, uniformBuffer: Handle, imageInfo: DescriptorImageInfo): seq<WriteDescriptorSet>
  {
    [WriteDescriptorSet(descriptorSet, 0, 0, 1, DESCRIPTOR_TYPE_UNIFORM_BUFFER,
                        BufferDescriptor(DescriptorBufferInfo(uniformBuffer, 0, UNIFORM_BUFFER_OBJECT_SIZE))),
     WriteDescriptorSet(descriptorSet, 1, 0, 1, DESCRIPTOR_TYPE_COMBINED_IMAGE_SAMPLER, ImageDescriptor(imageInfo))]
  }

  /** Each set takes one uniform-buffer descriptor and one combined-image-sampler descriptor, and nothing else. */
  lemma SetWritesFill(descriptorSet: Handle, uniformBuffer: Handle, imageInfo: DescriptorImageInfo)
    ensures var writes := SetWrites(descriptorSet, uniformBuffer, imageInfo);
            && WrittenDescriptors(writes, DESCRIPTOR_TYPE_UNIFORM_BUFFER) == 1
            && WrittenDescriptors(writes, DESCRIPTOR_TYPE_COMBINED_IMAGE_SAMPLER) == 1
            && forall t :: t != DESCRIPTOR_TYPE_UNIFORM_BUFFER && t != DESCRIPTOR_TYPE_COMBINED_IMAGE_SAMPLER ==>
                             WrittenDescriptors(writes, t) == 0
  {
    var writes := SetWrites(descriptorSet, uniformBuffer, imageInfo);
    WrittenDescriptorsPair(writes[0], writes[1]);
    assert writes == [writes[0], writes[1]];
  }

  /** Two writes fill what each of them fills. */
  lemma WrittenDescriptorsPair(a: WriteDescriptorSet, b: WriteDescriptorSet)
    ensures forall t :: WrittenDescriptors([a, b], t)
                        == (if a.descriptorType == t then a.descriptorCount else 0)
                           + (if b.descriptorType == t then b.descriptorCount else 0)
  {
    assert [a, b][1..] == [b];
    assert [b][1..] == [];
    forall t
      ensures WrittenDescriptors([a, b], t)
              == (if a.descriptorType == t then a.descriptorCount else 0) + WrittenDescriptors([b], t)
      ensures WrittenDescriptors([b], t) == (if b.descriptorType == t then b.descriptorCount else 0)
    {
    }
  }

  /** Two pool sizes hold what each of them holds. */
  lemma CapacityPair(a: DescriptorPoolSize, b: DescriptorPoolSize)
    ensures forall t :: Capacity([a, b], t)
                        == (if a.descriptorType == t then a.descriptorCount else 0)
                           + (if b.descriptorType == t then b.descriptorCount else 0)
  {
    assert [a, b][1..] == [b];
    assert [b][1..] == [];
    forall t
      ensures Capacity([a, b], t) == (if a.descriptorType == t then a.descriptorCount else 0) + Capacity([b], t)
      ensures Capacity([b], t) == (if b.descriptorType == t then b.descriptorCount else 0)
    {
    }
  }

  /**
   * With the director's pool sizes added, the pool holds, for every
   * descriptor type, what `frameInFlightCount` sets written as build()
   * writes them need.
   */
  lemma DirectorPoolCoversWrites(prior: seq<DescriptorPoolSize>, frameInFlightCount: nat,
                                 descriptorSet: Handle, uniformBuffer: Handle, imageInfo: DescriptorImageInfo)
    ensures forall t :: frameInFlightCount * WrittenDescriptors(SetWrites(descriptorSet, uniformBuffer, imageInfo), t)
                        <= Capacity(prior + DirectorPoolSizes(frameInFlightCount), t)
  {
    SetWritesFill(descriptorSet, uniformBuffer, imageInfo);
    forall t
      ensures frameInFlightCount * WrittenDescriptors(SetWrites(descriptorSet, uniformBuffer, imageInfo), t)
              <= Capacity(prior + DirectorPoolSizes(frameInFlightCount), t)
    {
      CapacityAppend(prior, DirectorPoolSizes(frameInFlightCount), t);
      var d := DirectorPoolSizes(frameInFlightCount);
      CapacityPair(d[0], d[1]);
      assert d == [d[0], d[1]];
    }
  }

  /**
   * The older revision's pool holds no descriptor of any type, while the
   * same builder configured by the director asks for a uniform buffer and
   * a combined image sampler per frame in flight.
   */
  lemma LegacyPoolIgnoresPoolSizes(prior: seq<DescriptorPoolSize>, frameInFlightCount: nat)
    requires 0 < frameInFlightCount
    ensures forall t :: Capacity(LEGACY_POOL_SIZES, t) == 0
    ensures Capacity(LEGACY_POOL_SIZES, DESCRIPTOR_TYPE_UNIFORM_BUFFER)
            < frameInFlightCount <= Capacity(prior + DirectorPoolSizes(frameInFlightCount), DESCRIPTOR_TYPE_UNIFORM_BUFFER)
    ensures Capacity(LEGACY_POOL_SIZES, DESCRIPTOR_TYPE_COMBINED_IMAGE_SAMPLER)
            < frameInFlightCount <= Capacity(prior + DirectorPoolSizes(frameInFlightCount), DESCRIPTOR_TYPE_COMBINED_IMAGE_SAMPLER)
  {
    DirectorPoolCoversWrites(prior, frameInFlightCount, NULL_HANDLE, NULL_HANDLE, DescriptorImageInfo(NULL_HANDLE, NULL_HANDLE, 0));
    SetWritesFill(NULL_HANDLE, NULL_HANDLE, DescriptorImageInfo(NULL_HANDLE, NULL_HANDLE, 0));
  }

  /**
   * The image info of binding 1: the texture's sampler and view while the
   * texture is alive, VK_NULL_HANDLE for both otherwise, always in the
   * shader-read-only layout.
   */
  function TextureImageInfo(texture: Texture?): (info: DescriptorImageInfo)
    reads texture
    ensures info.imageLayout == LAYOUT_SHADER_READ_ONLY_OPTIMAL
    ensures texture != null && texture.alive ==> info.sampler == texture.sampler && info.imageView == texture.imageView
    ensures texture == null || !texture.alive ==> info.sampler == NULL_HANDLE && info.imageView == NULL_HANDLE
  {
    if texture != null && texture.alive then DescriptorImageInfo(texture.sampler, texture.imageView, LAYOUT_SHADER_READ_ONLY_OPTIMAL)
    else DescriptorImageInfo(NULL_HANDLE, NULL_HANDLE, LAYOUT_SHADER_READ_ONLY_OPTIMAL)
  }

  /** The vkUpdateDescriptorSets calls of build(), one per set, in set order. */
  function DescriptorWritesFor(sets: seq<Handle>, uniformBuffers: seq<Handle>, imageInfo: DescriptorImageInfo)
    : (calls: seq<seq<WriteDescriptorSet>>)
    requires |sets| == |uniformBuffers|
    ensures |calls| == |sets|
  {
    seq(|sets|, j requires 0 <= j < |sets| => SetWrites(sets[j], uniformBuffers[j], imageInfo))
  }

  // ---------------------------------------------------------------------
  // Uniform buffers
  // ---------------------------------------------------------------------

  /** The driver's answers for one uniform buffer: vkCreateBuffer, the memory requirements, vkAllocateMemory. */
  datatype BufferAnswer = BufferAnswer(createOk: bool, requirements: MemoryRequirements, allocOk: bool)

  /** What the uniform-buffer preset creates each buffer from. */
  const UNIFORM_BUFFER_INFO: CreateInfo := BufferInfo(UNIFORM_BUFFER_OBJECT_SIZE, BUFFER_USAGE_UNIFORM_BUFFER, SHARING_MODE_EXCLUSIVE)

  /** The memory type a uniform buffer gets: the first host-visible, host-coherent one its requirements allow. */
  function UniformMemoryType(types: MemoryTypeList, answer: BufferAnswer): Option<nat>
  {
    FirstSuitableMemoryType(types, answer.requirements.memoryTypeBits, HOST_VISIBLE_COHERENT, 0)
  }

  /** Whether BufferBuilder::build() hands over a buffer for these answers. */
  predicate UniformBufferBuilt(types: MemoryTypeList, answer: BufferAnswer)
  {
    answer.createOk && UniformMemoryType(types, answer).Some? && answer.allocOk
  }

  /**
   * What stops the uniform-buffer loop at a buffer that was not built: the
   * `value()` throw when no memory type fits, otherwise the dereference
   * of the null buffer build() returned.
   */
  function UniformBufferFailure(types: MemoryTypeList, answer: BufferAnswer): Failure
  {
    if answer.createOk && UniformMemoryType(types, answer).None? then BadOptionalAccess else NullDereference
  }

  /** The failure of the first buffer that is not built, if any. */
  function FirstUniformBufferFailure(types: MemoryTypeList, answers: seq<BufferAnswer>): Option<Failure>
  {
    if |answers| == 0 then None
    else if !UniformBufferBuilt(types, answers[0]) then Some(UniformBufferFailure(types, answers[0]))
    else FirstUniformBufferFailure(types, answers[1..])
  }

  lemma {:induction false} NoFailureIffAllBuilt(types: MemoryTypeList, answers: seq<BufferAnswer>)
    ensures FirstUniformBufferFailure(types, answers).None?
            <==> forall j :: 0 <= j < |answers| ==> UniformBufferBuilt(types, answers[j])
  {
    if |answers| != 0 {
      NoFailureIffAllBuilt(types, answers[1..]);
      assert forall j :: 1 <= j < |answers| ==> answers[1..][j - 1] == answers[j];
    }
  }

  /**
   * The driver state after building one uniform buffer (as
   * BufferBuilder::build() does) and, when it was built, mapping its memory.
   */
  ghost function UniformBufferCreated(s: DriverState, types: MemoryTypeList, answer: BufferAnswer): DriverState
  {
    var t := BufferCreated(s, UNIFORM_BUFFER_INFO, answer.requirements.size, UniformMemoryType(types, answer),
                           answer.createOk, answer.allocOk);
    if UniformBufferBuilt(types, answer) then t.(mapped := t.mapped + {s.nextHandle + 1}) else t
  }

  /** The driver state after the uniform-buffer loop, which stops at the first buffer not built. */
  ghost function UniformBuffersCreated(s: DriverState, types: MemoryTypeList, answers: seq<BufferAnswer>): DriverState
    decreases |answers|
  {
    if |answers| == 0 then s
    else if UniformBufferBuilt(types, answers[0]) then UniformBuffersCreated(UniformBufferCreated(s, types, answers[0]), types, answers[1..])
    else UniformBufferCreated(s, types, answers[0])
  }

  /** A built and mapped uniform buffer at handle `h`, with its memory at `h + 1`. */
  ghost predicate UniformBufferAt(s: DriverState, h: Handle, types: MemoryTypeList, answer: BufferAnswer)
  {
    && UniformMemoryType(types, answer).Some?
    && h in s.live && h + 1 in s.live && h + 1 in s.mapped
    && h in s.created && s.created[h] == UNIFORM_BUFFER_INFO
    && h + 1 in s.created && s.created[h + 1] == MemoryInfo(answer.requirements.size, UniformMemoryType(types, answer).value)
    && h in s.bindings && s.bindings[h] == Binding(h + 1, 0)
  }

  /** `after` keeps everything `before` had below its next handle, and only adds live, mapped or bound objects. */
  ghost predicate Keeps(before: DriverState, after: DriverState)
  {
    && before.nextHandle <= after.nextHandle
    && before.live <= after.live && before.mapped <= after.mapped
    && (forall h :: h in before.created ==> h in after.created && after.created[h] == before.created[h])
    && (forall h :: h in before.bindings && h < before.nextHandle ==> h in after.bindings && after.bindings[h] == before.bindings[h])
    && (forall h :: h in after.live && h !in before.live ==> before.nextHandle <= h)
    && after.released == before.released && after.memory == before.memory
    && after.submissions == before.submissions && after.descriptorWrites == before.descriptorWrites
  }

  /** One built uniform buffer takes the next two handles and keeps everything earlier. */
  lemma UniformBufferStep(s: DriverState, types: MemoryTypeList, answer: BufferAnswer)
    requires WellFormed(s) && UniformBufferBuilt(types, answer)
    ensures var t := UniformBufferCreated(s, types, answer);
            && WellFormed(t) && Keeps(s, t) && t.nextHandle == s.nextHandle + 2
            && UniformBufferAt(t, s.nextHandle, types, answer)
  {
  }

  /** One built uniform buffer moves the next handle on by two. */
  lemma UniformBufferNextHandles(s: DriverState, types: MemoryTypeList, answer: BufferAnswer)
    requires WellFormed(s) && UniformBufferBuilt(types, answer)
    ensures var t := UniformBufferCreated(s, types, answer);
            WellFormed(t) && t.nextHandle == s.nextHandle + 2
  {
  }

  lemma KeepsTransitive(a: DriverState, b: DriverState, c: DriverState)
    requires Keeps(a, b) && Keeps(b, c)
    ensures Keeps(a, c)
  {
  }

  /** What a later state keeps includes any uniform buffer that was already there. */
  lemma KeepsUniformBuffer(s: DriverState, t: DriverState, h: Handle, types: MemoryTypeList, answer: BufferAnswer)
    requires UniformBufferAt(s, h, types, answer) && h < s.nextHandle && Keeps(s, t)
    ensures UniformBufferAt(t, h, types, answer)
  {
  }

  /** Building every uniform buffer takes two fresh handles each, and keeps everything earlier. */
  lemma {:induction false} UniformBuffersKeep(s: DriverState, types: MemoryTypeList, answers: seq<BufferAnswer>)
    requires WellFormed(s)
    requires forall j :: 0 <= j < |answers| ==> UniformBufferBuilt(types, answers[j])
    ensures var t := UniformBuffersCreated(s, types, answers);
            WellFormed(t) && Keeps(s, t) && t.nextHandle == s.nextHandle + 2 * |answers|
    decreases |answers|
  {
    if |answers| != 0 {
      var s1 := UniformBufferCreated(s, types, answers[0]);
      UniformBufferStep(s, types, answers[0]);
      assert forall j :: 0 <= j < |answers| - 1 ==> answers[1..][j] == answers[j + 1];
      UniformBuffersKeep(s1, types, answers[1..]);
      KeepsTransitive(s, s1, UniformBuffersCreated(s, types, answers));
    }
  }

  /** The first uniform buffer of the loop sits at the next two handles, built and mapped. */
  lemma FirstUniformBufferPlaced(s: DriverState, types: MemoryTypeList, answers: seq<BufferAnswer>)
    requires WellFormed(s) && 0 < |answers|
    requires forall k :: 0 <= k < |answers| ==> UniformBufferBuilt(types, answers[k])
    ensures UniformBufferAt(UniformBuffersCreated(s, types, answers), s.nextHandle, types, answers[0])
  {
    var s1 := UniformBufferCreated(s, types, answers[0]);
    var rest := answers[1..];
    assert UniformBuffersCreated(s, types, answers) == UniformBuffersCreated(s1, types, rest);
    UniformBufferStep(s, types, answers[0]);
    assert forall k :: 0 <= k < |rest| ==> rest[k] == answers[k + 1];
    UniformBuffersKeep(s1, types, rest);
    KeepsUniformBuffer(s1, UniformBuffersCreated(s1, types, rest), s.nextHandle, types, answers[0]);
  }

  /** The `j`-th uniform buffer of the loop sits at the `j`-th pair of handles, built and mapped. */
  lemma {:induction false} UniformBufferPlaced(s: DriverState, types: MemoryTypeList, answers: seq<BufferAnswer>, j: nat)
    requires WellFormed(s) && j < |answers|
    requires forall k :: 0 <= k < |answers| ==> UniformBufferBuilt(types, answers[k])
    ensures UniformBufferAt(UniformBuffersCreated(s, types, answers), s.nextHandle + 2 * j, types, answers[j])
    decreases j
  {
    var s1 := UniformBufferCreated(s, types, answers[0]);
    var rest := answers[1..];
    assert UniformBuffersCreated(s, types, answers) == UniformBuffersCreated(s1, types, rest);
    UniformBufferNextHandles(s, types, answers[0]);
    assert forall k :: 0 <= k < |rest| ==> rest[k] == answers[k + 1];
    if j == 0 {
      FirstUniformBufferPlaced(s, types, answers);
    } else {
      UniformBufferPlaced(s1, types, rest, j - 1);
      assert rest[j - 1] == answers[j];
    }
  }

  /** Every uniform buffer of the loop sits at its own pair of handles, built and mapped. */
  lemma UniformBuffersPlaced(s: DriverState, types: MemoryTypeList, answers: seq<BufferAnswer>)
    requires WellFormed(s)
    requires forall j :: 0 <= j < |answers| ==> UniformBufferBuilt(types, answers[j])
    ensures forall j :: 0 <= j < |answers| ==>
              UniformBufferAt(UniformBuffersCreated(s, types, answers), s.nextHandle + 2 * j, types, answers[j])
  {
    forall j | 0 <= j < |answers|
      ensures UniformBufferAt(UniformBuffersCreated(s, types, answers), s.nextHandle + 2 * j, types, answers[j])
    {
      UniformBufferPlaced(s, types, answers, j);
    }
  }

  // ---------------------------------------------------------------------
  // The state build() leaves behind
  // ---------------------------------------------------------------------

  /** The handles of the uniform buffers built from handle `from` on: every other handle. */
  function UniformBufferHandles(from: Handle, count: nat): (hs: seq<Handle>)
    ensures |hs| == count && forall j :: 0 <= j < count ==> hs[j] == from + 2 * j
  {
    seq(count, j => from + 2 * j)
  }

  /** The driver state after the pool and its sets were created. */
  ghost function SetsAllocated(s: DriverState, poolSizes: seq<DescriptorPoolSize>, count: nat, setLayout: Handle): DriverState
  {
    AfterCreateMany(AfterCreate(s, DescriptorPoolInfo(count, poolSizes), true),
                    DescriptorSetInfo(s.nextHandle, setLayout), count, true)
  }

  /** The driver state once the pool, the sets and every uniform buffer exist. */
  ghost function RenderStateBuffered(s: DriverState, poolSizes: seq<DescriptorPoolSize>, count: nat, setLayout: Handle,
                                     types: MemoryTypeList, answers: seq<BufferAnswer>): DriverState
  {
    UniformBuffersCreated(SetsAllocated(s, poolSizes, count, setLayout), types, answers)
  }

  /**
   * The driver state after the uniform buffers were built from state `a`
   * and then each of `sets` was written with its own uniform buffer and
   * the texture.
   */
  ghost function BuffersWritten(a: DriverState, types: MemoryTypeList, answers: seq<BufferAnswer>, sets: seq<Handle>,
                                imageInfo: DescriptorImageInfo): DriverState
    requires |sets| == |answers|
  {
    var b := UniformBuffersCreated(a, types, answers);
    b.(descriptorWrites := b.descriptorWrites
         + DescriptorWritesFor(sets, UniformBufferHandles(a.nextHandle, |answers|), imageInfo))
  }

  /**
   * The driver state after a build() where every step succeeded: the pool
   * at the next handle, the sets after it, then the uniform buffers, and
   * one vkUpdateDescriptorSets per set.
   */
  ghost function RenderStateCreated(s: DriverState, poolSizes: seq<DescriptorPoolSize>, count: nat, setLayout: Handle,
                                    types: MemoryTypeList, answers: seq<BufferAnswer>, imageInfo: DescriptorImageInfo): DriverState
    requires |answers| == count
  {
    BuffersWritten(SetsAllocated(s, poolSizes, count, setLayout), types, answers, HandleRange(s.nextHandle + 1, count), imageInfo)
  }

  lemma SetsAllocatedKeeps(s: DriverState, poolSizes: seq<DescriptorPoolSize>, count: nat, setLayout: Handle)
    requires WellFormed(s)
    ensures var a := SetsAllocated(s, poolSizes, count, setLayout);
            WellFormed(a) && Keeps(s, a) && a.nextHandle == s.nextHandle + 1 + count
  {
  }

  lemma SetsAllocatedObjects(s: DriverState, poolSizes: seq<DescriptorPoolSize>, count: nat, setLayout: Handle)
    requires WellFormed(s)
    ensures var a := SetsAllocated(s, poolSizes, count, setLayout);
            && s.nextHandle in a.live && s.nextHandle in a.created && a.created[s.nextHandle] == DescriptorPoolInfo(count, poolSizes)
            && (forall h :: s.nextHandle < h <= s.nextHandle + count ==>
                              h in a.live && h in a.created && a.created[h] == DescriptorSetInfo(s.nextHandle, setLayout))
  {
    var p := AfterCreate(s, DescriptorPoolInfo(count, poolSizes), true);
    var hs := HandleRange(p.nextHandle, count);
    forall h | s.nextHandle < h <= s.nextHandle + count
      ensures h in hs
    {
      assert hs[h - s.nextHandle - 1] == h;
    }
  }

  /** Once the uniform buffers exist, everything from before build() and the pool and sets are still there. */
  lemma RenderStateBufferedKeeps(s: DriverState, poolSizes: seq<DescriptorPoolSize>, count: nat, setLayout: Handle,
                                 types: MemoryTypeList, answers: seq<BufferAnswer>)
    requires WellFormed(s) && |answers| == count
    requires forall j :: 0 <= j < count ==> UniformBufferBuilt(types, answers[j])
    ensures var a := SetsAllocated(s, poolSizes, count, setLayout);
            var b := RenderStateBuffered(s, poolSizes, count, setLayout, types, answers);
            WellFormed(b) && Keeps(s, b) && Keeps(a, b) && b.nextHandle == s.nextHandle + 1 + 3 * count
  {
    var a := SetsAllocated(s, poolSizes, count, setLayout);
    SetsAllocatedKeeps(s, poolSizes, count, setLayout);
    UniformBuffersKeep(a, types, answers);
    KeepsTransitive(s, a, RenderStateBuffered(s, poolSizes, count, setLayout, types, answers));
  }

  /**
   * After a successful build() nothing from before is lost, and every
   * object that became live is fresh.
   */
  lemma RenderStateKeepsEarlierObjects(s: DriverState, poolSizes: seq<DescriptorPoolSize>, count: nat, setLayout: Handle,
                                       types: MemoryTypeList, answers: seq<BufferAnswer>, imageInfo: DescriptorImageInfo)
    requires WellFormed(s) && |answers| == count
    requires forall j :: 0 <= j < count ==> UniformBufferBuilt(types, answers[j])
    ensures var t := RenderStateCreated(s, poolSizes, count, setLayout, types, answers, imageInfo);
            && WellFormed(t) && t.nextHandle == s.nextHandle + 1 + 3 * count
            && s.live <= t.live
            && (forall h :: h in s.created ==> h in t.created && t.created[h] == s.created[h])
            && (forall h :: h in t.live && h !in s.live ==> s.nextHandle <= h)
            && t.released == s.released && t.memory == s.memory && t.submissions == s.submissions
  {
    RenderStateBufferedKeeps(s, poolSizes, count, setLayout, types, answers);
  }

  /** After a successful build() the pool and the sets are live and created as build() asked. */
  lemma RenderStateOwnsPoolAndSets(s: DriverState, poolSizes: seq<DescriptorPoolSize>, count: nat, setLayout: Handle,
                                   types: MemoryTypeList, answers: seq<BufferAnswer>, imageInfo: DescriptorImageInfo)
    requires WellFormed(s) && |answers| == count
    requires forall j :: 0 <= j < count ==> UniformBufferBuilt(types, answers[j])
    ensures var t := RenderStateCreated(s, poolSizes, count, setLayout, types, answers, imageInfo);
            var n := s.nextHandle;
            && n in t.live && n in t.created && t.created[n] == DescriptorPoolInfo(count, poolSizes)
            && (forall h :: n < h <= n + count ==>
                              h in t.live && h in t.created && t.created[h] == DescriptorSetInfo(n, setLayout))
  {
    SetsAllocatedObjects(s, poolSizes, count, setLayout);
    RenderStateBufferedKeeps(s, poolSizes, count, setLayout, types, answers);
  }

  /** After a successful build() the `j`-th uniform buffer is built and mapped, after the sets. */
  lemma RenderStateOwnsUniformBuffers(s: DriverState, poolSizes: seq<DescriptorPoolSize>, count: nat, setLayout: Handle,
                                      types: MemoryTypeList, answers: seq<BufferAnswer>, imageInfo: DescriptorImageInfo)
    requires WellFormed(s) && |answers| == count
    requires forall j :: 0 <= j < count ==> UniformBufferBuilt(types, answers[j])
    ensures var t := RenderStateCreated(s, poolSizes, count, setLayout, types, answers, imageInfo);
            forall j :: 0 <= j < count ==> UniformBufferAt(t, s.nextHandle + 1 + count + 2 * j, types, answers[j])
  {
    var a := SetsAllocated(s, poolSizes, count, setLayout);
    SetsAllocatedKeeps(s, poolSizes, count, setLayout);
    UniformBuffersPlaced(a, types, answers);
  }

  /**
   * After a successful build() every set got exactly one
   * vkUpdateDescriptorSets, in set order: its own uniform buffer at
   * binding 0 and the texture at binding 1.
   */
  lemma RenderStateWritesEverySet(s: DriverState, poolSizes: seq<DescriptorPoolSize>, count: nat, setLayout: Handle,
                                  types: MemoryTypeList, answers: seq<BufferAnswer>, imageInfo: DescriptorImageInfo)
    requires WellFormed(s) && |answers| == count
    requires forall j :: 0 <= j < count ==> UniformBufferBuilt(types, answers[j])
    ensures var t := RenderStateCreated(s, poolSizes, count, setLayout, types, answers, imageInfo);
            var n := s.nextHandle;
            && |t.descriptorWrites| == |s.descriptorWrites| + count
            && t.descriptorWrites[..|s.descriptorWrites|] == s.descriptorWrites
            && forall j :: 0 <= j < count ==>
                 t.descriptorWrites[|s.descriptorWrites| + j] == SetWrites(n + 1 + j, n + 1 + count + 2 * j, imageInfo)
  {
    SetsAllocatedKeeps(s, poolSizes, count, setLayout);
    RenderStateBufferedKeeps(s, poolSizes, count, setLayout, types, answers);
  }

  // ---------------------------------------------------------------------
  // The render state
  // ---------------------------------------------------------------------

  /**
   * A mesh render state. The descriptor pool is indeterminate until the
   * builder creates it; the model starts it at VK_NULL_HANDLE. A mesh that
   * is gone (its weak_ptr expired) is null.
   */
  class MeshRenderState {
    var device: Device?
    var pipeline: Pipeline?
    var descriptorPool: Handle
    var descriptorSets: seq<Handle>
    var uniformBuffers: seq<Buffer?>
    /** The memory object each frame's persistent mapping points into. */
    var uniformBuffersMapped: seq<Handle>
    var mesh: Mesh?

    constructor ()
      ensures device == null && pipeline == null && mesh == null && descriptorPool == NULL_HANDLE
      ensures descriptorSets == [] && uniformBuffers == [] && uniformBuffersMapped == []
    {
      device := null;
      pipeline := null;
      descriptorPool := NULL_HANDLE;
      descriptorSets := [];
      uniformBuffers := [];
      uniformBuffersMapped := [];
      mesh := null;
    }

    /**
     * The destructor: nothing while the device is gone; otherwise the pool
     * (and with it the sets) is destroyed and the pipeline let go.
     */
    method Destroy(drv: Driver)
      requires drv.Valid()
      modifies drv, this`pipeline
      ensures drv.Valid()
      ensures device != null && device.alive ==> drv.st == AfterRelease(old(drv.st), [descriptorPool]) && pipeline == null
      ensures device == null || !device.alive ==> drv.st == old(drv.st) && pipeline == old(pipeline)
    {
      if device == null || !device.alive {
        return;
      }
      drv.Release(descriptorPool);
      pipeline := null;
    }

    /**
     * updateUniformBuffers: the MVP block, as `ubo`, is copied into the
     * given frame's mapped uniform buffer; no other frame's buffer changes.
     */
    method UpdateUniformBuffers(drv: Driver, imageIndex: nat, ubo: seq<byte>)
      requires drv.Valid()
      requires imageIndex < |uniformBuffersMapped|        // the vector is indexed unchecked
      requires |ubo| == UNIFORM_BUFFER_OBJECT_SIZE
      modifies drv
      ensures drv.Valid()
      ensures drv.st == old(drv.st).(memory := old(drv.st.memory)[uniformBuffersMapped[imageIndex] := ubo])
    {
      drv.WriteMemory(uniformBuffersMapped[imageIndex], ubo);
    }

    /** recordBackBufferDescriptorSetsCommands: binds the given frame's set as set 0 of the pipeline's layout. */
    method RecordDescriptorSets(commandBuffer: CommandBuffer, imageIndex: nat) returns (outcome: Outcome<()>)
      requires imageIndex < |descriptorSets|              // the vector is indexed unchecked
      modifies commandBuffer
      ensures pipeline == null ==> outcome == Aborted(NullDereference) && commandBuffer.commands == old(commandBuffer.commands)
      ensures pipeline != null ==>
                outcome == Returned(())
                && commandBuffer.commands == old(commandBuffer.commands)
                     + [BindDescriptorSets(PIPELINE_BIND_POINT_GRAPHICS, pipeline.pipelineLayout, 0, [descriptorSets[imageIndex]])]
    {
      if pipeline == null {
        return Aborted(NullDereference);
      }
      commandBuffer.Record(BindDescriptorSets(PIPELINE_BIND_POINT_GRAPHICS, pipeline.pipelineLayout, 0, [descriptorSets[imageIndex]]));
      return Returned(());
    }

    /**
     * recordBackBufferDrawObjectCommands: the mesh's vertex buffer at
     * binding 0, its index buffer with 16-bit indices, and one indexed draw
     * of every index. A mesh or buffer that is not there is dereferenced
     * anyway.
     */
    method RecordDraw(commandBuffer: CommandBuffer) returns (outcome: Outcome<()>)
      modifies commandBuffer
      ensures mesh == null || mesh.vertexBuffer == null ==>
                outcome == Aborted(NullDereference) && commandBuffer.commands == old(commandBuffer.commands)
      ensures mesh != null && mesh.vertexBuffer != null && mesh.indexBuffer == null ==>
                outcome == Aborted(NullDereference)
                && commandBuffer.commands == old(commandBuffer.commands) + [BindVertexBuffers(0, [mesh.vertexBuffer.handle], [0])]
      ensures mesh != null && mesh.vertexBuffer != null && mesh.indexBuffer != null ==>
                outcome == Returned(())
                && commandBuffer.commands == old(commandBuffer.commands)
                     + [BindVertexBuffers(0, [mesh.vertexBuffer.handle], [0]),
                        BindIndexBuffer(mesh.indexBuffer.handle, 0, INDEX_TYPE_UINT16),
                        DrawIndexed(|mesh.indices| % UINT32_LIMIT, 1, 0, 0, 0)]
    {
      if mesh == null || mesh.vertexBuffer == null {
        return Aborted(NullDereference);
      }
      commandBuffer.Record(BindVertexBuffers(0, [mesh.vertexBuffer.handle], [0]));
      if mesh.indexBuffer == null {
        return Aborted(NullDereference);
      }
      commandBuffer.Record(BindIndexBuffer(mesh.indexBuffer.handle, 0, INDEX_TYPE_UINT16));
      commandBuffer.Record(DrawIndexed(|mesh.indices| % UINT32_LIMIT, 1, 0, 0, 0));
      return Returned(());
    }

    /**
     * The first steps of build(): the pool, with room for `count` sets,
     * then the sets, all with the pipeline's set layout. `proceed` is
     * false where build() gives up and returns null: a failed
     * vkCreateDescriptorPool or vkAllocateDescriptorSets. A pipeline that
     * was never set is dereferenced anyway.
     */
    method CreatePoolAndSets(drv: Driver, poolSizes: seq<DescriptorPoolSize>, count: nat, poolOk: bool, setsOk: bool)
      returns (proceed: Outcome<bool>)
      requires drv.Valid()
      modifies drv, this`descriptorPool, this`descriptorSets
      ensures drv.Valid()
      ensures var n := old(drv.st.nextHandle);
              var pooled := AfterCreate(old(drv.st), DescriptorPoolInfo(count, poolSizes), true);
              && (!poolOk ==> proceed == Returned(false) && descriptorPool == NULL_HANDLE && drv.st == old(drv.st))
              && (poolOk ==> descriptorPool == n)
              && (poolOk && pipeline == null ==> proceed == Aborted(NullDereference) && drv.st == pooled)
              && (poolOk && pipeline != null && !setsOk ==>
                    proceed == Returned(false) && descriptorSets == seq(count, _ => NULL_HANDLE) && drv.st == pooled)
              && (poolOk && pipeline != null && setsOk ==>
                    && proceed == Returned(true) && descriptorSets == HandleRange(n + 1, count)
                    && drv.st == SetsAllocated(old(drv.st), poolSizes, count, pipeline.descriptorSetLayout))
    {
      descriptorPool := drv.Create(DescriptorPoolInfo(count, poolSizes), poolOk);
      if !poolOk {
        return Returned(false);
      }
      if pipeline == null {
        return Aborted(NullDereference);
      }
      descriptorSets := drv.CreateMany(DescriptorSetInfo(descriptorPool, pipeline.descriptorSetLayout), count, setsOk);
      return Returned(setsOk);
    }

    /**
     * The rest of build() once the sets exist: the uniform-buffer loop,
     * then the descriptor-write loop.
     */
    method CreateBuffersAndWriteSets(drv: Driver, device: Device, answers: seq<BufferAnswer>, texture: Texture?)
      returns (outcome: Outcome<()>)
      requires drv.Valid() && device.alive
      requires |answers| == |descriptorSets|
      modifies drv, this`uniformBuffers, this`uniformBuffersMapped
      ensures drv.Valid()
      ensures |uniformBuffers| == |uniformBuffersMapped| == |answers|
      ensures match FirstUniformBufferFailure(device.physical.memoryTypes, answers)
              case Some(failure) =>
                outcome == Aborted(failure) && drv.st == UniformBuffersCreated(old(drv.st), device.physical.memoryTypes, answers)
              case None =>
                outcome == Returned(())
                && drv.st == BuffersWritten(old(drv.st), device.physical.memoryTypes, answers, descriptorSets, TextureImageInfo(texture))
      ensures outcome.Returned? ==>
                forall j :: 0 <= j < |answers| ==>
                  && uniformBuffers[j] != null && fresh(uniformBuffers[j])
                  && uniformBuffers[j].device == device && uniformBuffers[j].size == UNIFORM_BUFFER_OBJECT_SIZE
                  && uniformBuffers[j].handle == old(drv.st.nextHandle) + 2 * j
                  && uniformBuffers[j].memory == uniformBuffersMapped[j] == old(drv.st.nextHandle) + 2 * j + 1
    {
      var buffers := CreateUniformBuffers(drv, device, |answers|, answers);
      if buffers.Aborted? {
        return Aborted(buffers.failure);
      }
      WriteDescriptorSets(drv, descriptorSets, uniformBuffers, UniformBufferHandles(old(drv.st.nextHandle), |answers|), texture);
      return Returned(());
    }

    /**
     * The uniform-buffer loop of build(): both vectors are resized to
     * `count`, then each buffer is built from the uniform-buffer preset and
     * its memory mapped, until one is not built.
     */
    method CreateUniformBuffers(drv: Driver, device: Device, count: nat, answers: seq<BufferAnswer>) returns (outcome: Outcome<()>)
      requires drv.Valid() && device.alive
      requires |answers| == count
      modifies drv, this`uniformBuffers, this`uniformBuffersMapped
      ensures drv.Valid()
      ensures drv.st == UniformBuffersCreated(old(drv.st), device.physical.memoryTypes, answers)
      ensures |uniformBuffers| == |uniformBuffersMapped| == count
      ensures match FirstUniformBufferFailure(device.physical.memoryTypes, answers)
              case Some(failure) => outcome == Aborted(failure)
              case None => outcome == Returned(())
      ensures outcome.Returned? ==>
                forall j :: 0 <= j < count ==>
                  && uniformBuffers[j] != null && fresh(uniformBuffers[j])
                  && uniformBuffers[j].device == device && uniformBuffers[j].size == UNIFORM_BUFFER_OBJECT_SIZE
                  && uniformBuffers[j].handle == old(drv.st.nextHandle) + 2 * j
                  && uniformBuffers[j].memory == uniformBuffersMapped[j] == old(drv.st.nextHandle) + 2 * j + 1
    {
      var types := device.physical.memoryTypes;
      uniformBuffers := seq(count, _ => null);
      uniformBuffersMapped := seq(count, _ => NULL_HANDLE);
      ghost var n := drv.st.nextHandle;
      for i := 0 to count
        invariant drv.Valid()
        invariant |uniformBuffers| == |uniformBuffersMapped| == count
        invariant forall j :: 0 <= j < i ==> UniformBufferBuilt(types, answers[j])
        invariant UniformBuffersCreated(drv.st, types, answers[i..]) == UniformBuffersCreated(old(drv.st), types, answers)
        invariant FirstUniformBufferFailure(types, answers[i..]) == FirstUniformBufferFailure(types, answers)
        invariant drv.st.nextHandle == n + 2 * i
        invariant forall j :: 0 <= j < i ==>
                    && uniformBuffers[j] != null && fresh(uniformBuffers[j])
                    && uniformBuffers[j].device == device && uniformBuffers[j].size == UNIFORM_BUFFER_OBJECT_SIZE
                    && uniformBuffers[j].handle == n + 2 * j
                    && uniformBuffers[j].memory == uniformBuffersMapped[j] == n + 2 * j + 1
      {
        assert answers[i..][1..] == answers[i + 1..];
        var built := BuildUniformBuffer(drv, device, answers[i]);
        if built.Aborted? {
          return Aborted(built.failure);
        }
        var buffer := built.value;
        uniformBuffers := uniformBuffers[i := buffer];
        uniformBuffersMapped := uniformBuffersMapped[i := buffer.memory];
      }
      assert answers[count..] == [];
      return Returned(());
    }

    /**
     * The older revision's uniform-buffer loop: both vectors are resized,
     * then each buffer comes from Buffer's constructor and its memory is
     * mapped.
     */
    method CreateLegacyUniformBuffers(drv: Driver, device: Device, uboSize: nat, requirements: seq<MemoryRequirements>)
      requires drv.Valid() && device.alive
      requires forall j :: 0 <= j < |requirements| ==>
                 FirstSuitableMemoryType(device.physical.memoryTypes, requirements[j].memoryTypeBits, HOST_VISIBLE_COHERENT, 0).Some?
      modifies drv, this`uniformBuffers, this`uniformBuffersMapped
      ensures drv.Valid()
      ensures drv.st.nextHandle == old(drv.st.nextHandle) + 2 * |requirements|
      ensures forall h :: h in old(drv.st.created) ==> h in drv.st.created && drv.st.created[h] == old(drv.st.created)[h]
      ensures |uniformBuffers| == |uniformBuffersMapped| == |requirements|
      ensures forall j :: 0 <= j < |requirements| ==>
                && uniformBuffers[j] != null && uniformBuffers[j].size == uboSize
                && uniformBuffers[j].handle == old(drv.st.nextHandle) + 2 * j
                && uniformBuffers[j].memory == uniformBuffersMapped[j] == old(drv.st.nextHandle) + 2 * j + 1
                && uniformBuffersMapped[j] in drv.st.mapped
    {
      ghost var n := drv.st.nextHandle;
      uniformBuffers := seq(|requirements|, _ => null);
      uniformBuffersMapped := seq(|requirements|, _ => NULL_HANDLE);
      for i := 0 to |requirements|
        invariant drv.Valid()
        invariant drv.st.nextHandle == n + 2 * i
        invariant forall h :: h in old(drv.st.created) ==> h in drv.st.created && drv.st.created[h] == old(drv.st.created)[h]
        invariant |uniformBuffers| == |uniformBuffersMapped| == |requirements|
        invariant forall j :: 0 <= j < i ==>
                    && uniformBuffers[j] != null && uniformBuffers[j].size == uboSize
                    && uniformBuffers[j].handle == n + 2 * j
                    && uniformBuffers[j].memory == uniformBuffersMapped[j] == n + 2 * j + 1
                    && uniformBuffersMapped[j] in drv.st.mapped
      {
        var buffer := ConstructBuffer(drv, device, uboSize, BUFFER_USAGE_UNIFORM_BUFFER, HOST_VISIBLE_COHERENT, requirements[i]);
        uniformBuffers := uniformBuffers[i := buffer];
        drv.MapMemory(buffer.memory);
        uniformBuffersMapped := uniformBuffersMapped[i := buffer.memory];
      }
    }
  }

  /**
   * One iteration of the uniform-buffer loop: a builder given the
   * uniform-buffer preset, the MVP size and the device builds a buffer,
   * whose memory is then mapped.
   */
  method BuildUniformBuffer(drv: Driver, device: Device, answer: BufferAnswer) returns (outcome: Outcome<Buffer>)
    requires drv.Valid() && device.alive
    modifies drv
    ensures drv.Valid()
    ensures drv.st == UniformBufferCreated(old(drv.st), device.physical.memoryTypes, answer)
    ensures UniformBufferBuilt(device.physical.memoryTypes, answer) ==>
              && outcome.Returned? && fresh(outcome.value)
              && outcome.value.device == device && outcome.value.size == UNIFORM_BUFFER_OBJECT_SIZE
              && outcome.value.handle == old(drv.st.nextHandle) && outcome.value.memory == old(drv.st.nextHandle) + 1
    ensures !UniformBufferBuilt(device.physical.memoryTypes, answer) ==>
              outcome == Aborted(UniformBufferFailure(device.physical.memoryTypes, answer))
  {
    var bb := new BufferBuilder();
    CreatePresetBuilder(UniformData, bb);
    bb.SetSize(UNIFORM_BUFFER_OBJECT_SIZE);
    bb.SetDevice(device);
    var built := bb.Build(drv, answer.createOk, answer.requirements, answer.allocOk);
    if built.Aborted? {
      return Aborted(built.failure);
    }
    if built.value == null {
      return Aborted(NullDereference);
    }
    var buffer: Buffer := built.value;
    drv.MapMemory(buffer.memory);
    return Returned(buffer);
  }

  /**
   * The descriptor-write loop of build(): for each set, a fresh
   * UniformDescriptorBuilder collects its two writes, which go to the
   * driver in one vkUpdateDescriptorSets.
   */
  method WriteDescriptorSets(drv: Driver, sets: seq<Handle>, uniformBuffers: seq<Buffer?>, ghost handles: seq<Handle>,
                             texture: Texture?)
    requires drv.Valid()
    requires |sets| == |uniformBuffers| == |handles|
    requires forall j :: 0 <= j < |sets| ==> uniformBuffers[j] != null && uniformBuffers[j].handle == handles[j]
    modifies drv
    ensures drv.Valid()
    ensures drv.st == old(drv.st).(descriptorWrites := old(drv.st.descriptorWrites)
                                     + DescriptorWritesFor(sets, handles, TextureImageInfo(texture)))
  {
    for i := 0 to |sets|
      invariant drv.Valid()
      invariant drv.st == old(drv.st).(descriptorWrites := old(drv.st.descriptorWrites)
                                         + DescriptorWritesFor(sets[..i], handles[..i], TextureImageInfo(texture)))
    {
      var udb := new UniformDescriptorBuilder();
      udb.AddSetWrites(WriteDescriptorSet(sets[i], 0, 0, 1, DESCRIPTOR_TYPE_UNIFORM_BUFFER,
                                          BufferDescriptor(DescriptorBufferInfo(uniformBuffers[i].handle, 0, UNIFORM_BUFFER_OBJECT_SIZE))));
      var imageInfo := DescriptorImageInfo(NULL_HANDLE, NULL_HANDLE, LAYOUT_SHADER_READ_ONLY_OPTIMAL);
      if texture != null && texture.alive {
        imageInfo := imageInfo.(sampler := texture.sampler, imageView := texture.imageView);
      }
      udb.AddSetWrites(WriteDescriptorSet(sets[i], 1, 0, 1, DESCRIPTOR_TYPE_COMBINED_IMAGE_SAMPLER, ImageDescriptor(imageInfo)));
      var descriptor := udb.Build();
      assert descriptor.setWrites == SetWrites(sets[i], handles[i], TextureImageInfo(texture));
      drv.UpdateDescriptorSets(descriptor.setWrites);
      assert DescriptorWritesFor(sets[..i + 1], handles[..i + 1], TextureImageInfo(texture))
             == DescriptorWritesFor(sets[..i], handles[..i], TextureImageInfo(texture))
                + [SetWrites(sets[i], handles[i], TextureImageInfo(texture))];
    }
    assert sets[..|sets|] == sets && handles[..|sets|] == handles;
  }

  // ---------------------------------------------------------------------
  // The builder
  // ---------------------------------------------------------------------

  /**
   * MeshRenderStateBuilder. The constructor starts a product; build()
   * hands it over and does not start another, so the product is null
   * afterwards. The frame-in-flight count starts out indeterminate; the
   * model starts it at zero. The older revision's builder (which holds a
   * raw texture pointer) has the same setters; its build() is BuildLegacy.
   */
  class MeshRenderStateBuilder {
    var product: MeshRenderState?
    var device: Device?
    var poolSizes: seq<DescriptorPoolSize>
    var frameInFlightCount: nat
    var texture: Texture?

    constructor ()
      ensures product != null && fresh(product)
      ensures product.device == null && product.pipeline == null && product.mesh == null
      ensures product.descriptorSets == [] && product.uniformBuffers == []
      ensures device == null && poolSizes == [] && frameInFlightCount == 0 && texture == null
    {
      product := new MeshRenderState();
      device := null;
      poolSizes := [];
      frameInFlightCount := 0;
      texture := null;
    }

    /** A fresh, empty product; the builder's own settings stay. */
    method Restart()
      modifies this`product
      ensures product != null && fresh(product)
      ensures product.device == null && product.pipeline == null && product.mesh == null
      ensures product.descriptorSets == [] && product.uniformBuffers == []
    {
      product := new MeshRenderState();
    }

    /**
     * The device goes to the builder and then to the product; after a build
     * has handed the product over, the product write dereferences null.
     */
    method SetDevice(device: Device?) returns (outcome: Outcome<()>)
      modifies this`device, product
      ensures product != null ==> unchanged(product`pipeline, product`descriptorPool, product`descriptorSets, product`uniformBuffers, product`uniformBuffersMapped, product`mesh)
      ensures this.device == device
      ensures product == null ==> outcome == Aborted(NullDereference)   // m_product is dereferenced
      ensures product != null ==> outcome == Returned(()) && product.device == device
    {
      this.device := device;
      if product == null {
        return Aborted(NullDereference);
      }
      product.device := device;
      outcome := Returned(());
    }

    /** The pipeline goes to the product only. */
    method SetPipeline(pipeline: Pipeline?) returns (outcome: Outcome<()>)
      modifies product
      ensures product != null ==> unchanged(product`device, product`descriptorPool, product`descriptorSets, product`uniformBuffers, product`uniformBuffersMapped, product`mesh)
      ensures product == null ==> outcome == Aborted(NullDereference)   // m_product is dereferenced
      ensures product != null ==> outcome == Returned(()) && product.pipeline == pipeline
    {
      if product == null {
        return Aborted(NullDereference);
      }
      product.pipeline := pipeline;
      outcome := Returned(());
    }

    /** The mesh goes to the product only. */
    method SetMesh(mesh: Mesh?) returns (outcome: Outcome<()>)
      modifies product
      ensures product != null ==> unchanged(product`device, product`pipeline, product`descriptorPool, product`descriptorSets, product`uniformBuffers, product`uniformBuffersMapped)
      ensures product == null ==> outcome == Aborted(NullDereference)   // m_product is dereferenced
      ensures product != null ==> outcome == Returned(()) && product.mesh == mesh
    {
      if product == null {
        return Aborted(NullDereference);
      }
      product.mesh := mesh;
      outcome := Returned(());
    }

    /** The count is a uint32_t. */
    method SetFrameInFlightCount(a: nat)
      requires a < UINT32_LIMIT
      modifies this`frameInFlightCount
      ensures frameInFlightCount == a
    {
      frameInFlightCount := a;
    }

    method SetTexture(texture: Texture?)
      modifies this`texture
      ensures this.texture == texture
    {
      this.texture := texture;
    }

    /**
     * addPoolSize: one more pool size, after those already added, sized
     * by the frame-in-flight count at the time of the call.
     */
    method AddPoolSize(poolSizeType: nat)
      modifies this`poolSizes
      ensures poolSizes == old(poolSizes) + [DescriptorPoolSize(poolSizeType, frameInFlightCount)]
      ensures Capacity(poolSizes, poolSizeType) == Capacity(old(poolSizes), poolSizeType) + frameInFlightCount
    {
      CapacityAppend(poolSizes, [DescriptorPoolSize(poolSizeType, frameInFlightCount)], poolSizeType);
      poolSizes := poolSizes + [DescriptorPoolSize(poolSizeType, frameInFlightCount)];
    }

    /**
     * build(): the descriptor pool; the sets, one per frame in flight, all
     * with the pipeline's set layout; the uniform buffers, built and mapped
     * one by one; then, per set, its uniform buffer and the texture are
     * written. A failed vkCreateDescriptorPool or vkAllocateDescriptorSets
     * returns null and keeps the product; a pipeline that was never set is
     * dereferenced anyway. The product is handed over without a restart, so
     * a second build dereferences null when it creates the pool.
     */
    method Build(drv: Driver, poolOk: bool, setsOk: bool, answers: seq<BufferAnswer>) returns (outcome: Outcome<MeshRenderState?>)
      requires drv.Valid()
      requires device != null && device.alive      // assert(m_device.lock())
      requires |answers| == frameInFlightCount
      modifies this`product, product, drv
      ensures drv.Valid()
      ensures old(product) == null ==> outcome == Aborted(NullDereference) && product == null && drv.st == old(drv.st)
      ensures old(product) != null ==>
              var n := old(drv.st.nextHandle);
              var p := old(product);
              var count := frameInFlightCount;
              var types := device.physical.memoryTypes;
              var pooled := AfterCreate(old(drv.st), DescriptorPoolInfo(count, poolSizes), true);
              && (!poolOk ==> outcome == Returned(null) && product == p && p.descriptorPool == NULL_HANDLE && drv.st == old(drv.st))
              && (poolOk ==> p.descriptorPool == n)
              && (poolOk && old(p.pipeline) == null ==> outcome == Aborted(NullDereference) && drv.st == pooled)
              && (poolOk && old(p.pipeline) != null && !setsOk ==>
                    && outcome == Returned(null) && product == p
                    && p.descriptorSets == seq(count, _ => NULL_HANDLE) && drv.st == pooled)
              && (poolOk && old(p.pipeline) != null && setsOk ==>
                    var layout := old(p.pipeline.descriptorSetLayout);
                    && p.descriptorSets == HandleRange(n + 1, count)
                    && |p.uniformBuffers| == |p.uniformBuffersMapped| == count
                    && (FirstUniformBufferFailure(types, answers).Some? ==>
                          outcome == Aborted(FirstUniformBufferFailure(types, answers).value)
                          && drv.st == UniformBuffersCreated(SetsAllocated(old(drv.st), poolSizes, count, layout), types, answers))
                    && (FirstUniformBufferFailure(types, answers).None? ==>
                          && outcome == Returned(p) && product == null
                          && drv.st == RenderStateCreated(old(drv.st), poolSizes, count, layout, types, answers, TextureImageInfo(texture))
                          && forall j :: 0 <= j < count ==>
                               && p.uniformBuffers[j] != null && fresh(p.uniformBuffers[j])
                               && p.uniformBuffers[j].device == device && p.uniformBuffers[j].size == UNIFORM_BUFFER_OBJECT_SIZE
                               && p.uniformBuffers[j].handle == n + 1 + count + 2 * j
                               && p.uniformBuffers[j].memory == p.uniformBuffersMapped[j] == n + 2 + count + 2 * j))
    {
      if product == null {
        return Aborted(NullDereference);
      }
      var p: MeshRenderState := product;
      ghost var s := drv.st;
      var proceed := p.CreatePoolAndSets(drv, poolSizes, frameInFlightCount, poolOk, setsOk);
      if proceed.Aborted? {
        return Aborted(proceed.failure);
      } else if !proceed.value {
        return Returned(null);
      }
      var written := p.CreateBuffersAndWriteSets(drv, device, answers, texture);
      if written.Aborted? {
        return Aborted(written.failure);
      }
      product := null;
      return Returned(p);
    }

    /**
     * The older revision's build(): the same steps, except that the pool
     * is created with no pool sizes at all, whatever addPoolSize added, and
     * each uniform buffer comes from Buffer's constructor, `uboSize` bytes,
     * uniform usage, host-visible and host-coherent memory. As in build(),
     * a second call dereferences the product already handed over.
     */
    method BuildLegacy(drv: Driver, poolOk: bool, setsOk: bool, requirements: seq<MemoryRequirements>, uboSize: nat)
      returns (outcome: Outcome<MeshRenderState?>)
      requires drv.Valid()
      requires device != null && device.alive
      requires |requirements| == frameInFlightCount
      requires forall j :: 0 <= j < |requirements| ==>
                 FirstSuitableMemoryType(device.physical.memoryTypes, requirements[j].memoryTypeBits, HOST_VISIBLE_COHERENT, 0).Some?
      modifies this`product, product, drv
      ensures drv.Valid()
      ensures old(product) == null ==> outcome == Aborted(NullDereference) && product == null && drv.st == old(drv.st)
      ensures old(product) != null ==>
              var n := old(drv.st.nextHandle);
              var p := old(product);
              var count := frameInFlightCount;
              && (!poolOk ==> outcome == Returned(null) && product == p && drv.st == old(drv.st))
              && (poolOk ==> p.descriptorPool == n && n in drv.st.created
                             && drv.st.created[n] == DescriptorPoolInfo(count, LEGACY_POOL_SIZES))
              && (poolOk && old(p.pipeline) == null ==> outcome == Aborted(NullDereference))
              && (poolOk && old(p.pipeline) != null && !setsOk ==>
                    outcome == Returned(null) && product == p && p.descriptorSets == seq(count, _ => NULL_HANDLE))
              && (poolOk && old(p.pipeline) != null && setsOk ==>
                    && outcome == Returned(p) && product == null
                    && p.descriptorSets == HandleRange(n + 1, count)
                    && |p.uniformBuffers| == |p.uniformBuffersMapped| == count
                    && forall j :: 0 <= j < count ==>
                         && p.uniformBuffers[j] != null && p.uniformBuffers[j].size == uboSize
                         && p.uniformBuffers[j].handle == n + 1 + count + 2 * j
                         && p.uniformBuffers[j].memory == p.uniformBuffersMapped[j] == n + 2 + count + 2 * j
                         && p.uniformBuffersMapped[j] in drv.st.mapped)
    {
      if product == null {
        return Aborted(NullDereference);
      }
      var p: MeshRenderState := product;
      var proceed := p.CreatePoolAndSets(drv, LEGACY_POOL_SIZES, frameInFlightCount, poolOk, setsOk);
      if proceed.Aborted? {
        return Aborted(proceed.failure);
      } else if !proceed.value {
        return Returned(null);
      }
      p.CreateLegacyUniformBuffers(drv, device, uboSize, requirements);
      product := null;
      return Returned(p);
    }
  }

  /** createUniformAndSamplerRenderStateBuilder: a uniform-buffer pool size, then a combined-image-sampler one. */
  method CreateUniformAndSamplerRenderStateBuilder(builder: MeshRenderStateBuilder)
    modifies builder`poolSizes
    ensures builder.poolSizes == old(builder.poolSizes) + DirectorPoolSizes(builder.frameInFlightCount)
  {
    builder.AddPoolSize(DESCRIPTOR_TYPE_UNIFORM_BUFFER);
    builder.AddPoolSize(DESCRIPTOR_TYPE_COMBINED_IMAGE_SAMPLER);
  }
}
