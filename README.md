# A verified model of the vulkan-playground builders

This project models the configuration layer of a small C++ Vulkan renderer:
the builders and directors that assemble Vulkan create-infos, the fallible
creation sequences they run, and the teardown order of the objects they
produce. It covers:

- the physical-device searches (memory type, graphics and present queue family);
- logical-device creation;
- buffers, images and image-layout transitions;
- render passes and their framebuffers;
- graphics pipelines, uniform descriptors and vertex layouts;
- meshes, textures and per-object render states;
- the renderer builder.

The Vulkan API is modelled as a fallible allocator of fresh handles (module
`Vulkan`, class `Driver`). Its state holds:

- the next handle;
- the set of live handles;
- the create-info every handle was made from;
- the release log;
- memory bindings, mappings and host writes;
- one-time queue submissions and descriptor-set updates.

Every `vkCreate*` or `vkAllocate*` result, every memory-requirements answer and
every file the program reads is a parameter of the method that makes the call.
A C++ path that throws (`std::optional::value()` on an empty optional) or
dereferences a null pointer ends in `Aborted(...)` of the `Outcome` datatype,
so such paths are stated rather than excluded; the few exceptions are listed
under "Left out". A `std::weak_ptr<Device>` is a nullable `Device` whose
`alive` flag says whether `lock()` succeeds. Where a member locks it without
a check (the buffer, image and shader-stage members and the destructors that
reach them), an expired device ends in `Aborted(NullDereference)`; where a
build first asserts `m_device.lock()`, the assertion is a precondition.

Modules follow the program's files:

| module | file |
|---|---|
| `Vulkan` | vulkan.dfy |
| `Devices` | device.dfy |
| `Buffers` | buffer.dfy |
| `Images` | image.dfy |
| `SwapChains` | swapchain.dfy |
| `RenderPasses` | render_pass.dfy |
| `Vertices` | vertex.dfy |
| `Uniforms` | uniform.dfy |
| `Pipelines` | pipeline.dfy |
| `Meshes` | mesh.dfy |
| `Textures` | texture.dfy |
| `RenderStates` | render_state.dfy |
| `Renderers` | renderer.dfy |

The repository holds two revisions of some classes.

- The render pass: `RenderPasses.RenderPassBuilder.Build` models both
  revisions. The older one holds the swapchain as a `weak_ptr` and locks it once.
- The render state: `MeshRenderStateBuilder.Build` models the current revision
  (internal/renderer/render_state.cpp) and `MeshRenderStateBuilder.BuildLegacy`
  the older one (internal/renderer/renderstate.cpp). The setters, the draw
  recording, the uniform update and the destructor are the same in both, so one
  member models each.

Integer widths are explicit where they change results:

- the texture byte size is computed in 32-bit unsigned arithmetic;
- the mesh's draw count is a `uint32_t`;
- scene face indices are narrowed to `uint16_t`;
- the renderer's buffering type is stored as an `int`.

## Model

| member | source | states |
|---|---|---|
| Devices.FirstSuitableMemoryTypeIsLowest | internal/graphics/device.cpp:103-119 | the memory-type search returns the lowest index whose bit is set in `memoryTypeBits` and whose flags include every requested property, and returns nothing exactly when no index qualifies |
| Devices.FindMemoryTypeIndex | internal/graphics/device.cpp:103-119 | the loop returns the lowest suitable memory type; none before it qualifies; it returns nothing iff no type qualifies |
| Devices.FirstQueueFamilyIsLowest | internal/graphics/device.cpp:130-139 | the family search returns the lowest family sharing a flag bit with the requested capabilities, and nothing exactly when none does |
| Devices.FindQueueFamilyIndex | internal/graphics/device.cpp:130-139 | the loop returns the lowest family with a requested capability, and nothing iff no family has one |
| Devices.FirstPresentFamilyIsLowest | internal/graphics/device.cpp:140-154 | the present search returns the lowest family reporting surface support, and nothing exactly when none does |
| Devices.FindPresentQueueFamilyIndex | internal/graphics/device.cpp:140-154 | without a surface the result is absent; otherwise it is the lowest family that can present, and absent only when no family can |
| Devices.UniqueQueueFamilies | internal/graphics/device.cpp:30-35 | the std::set contents in ascending order: exactly the graphics and present indices that exist, each once, so equal indices give one family |
| Devices.QueueCreateInfos | internal/graphics/device.cpp:37-46 | one create-info with queueCount 1 per distinct family, in the set's order |
| Devices.Device.constructor | internal/graphics/device.cpp:10-18 | the graphics family is always looked up with the GRAPHICS bit; the present family is looked up only when a surface is given |
| Devices.Device.InitLogicalDevice | internal/graphics/device.cpp:28-101 | a device-creation failure stops before queues and pools; a missing family index throws at `value()`; queue 0 of each family is fetched; the transient pool is attempted only after the persistent pool succeeded |
| Devices.Device.CreateCommandPools | internal/graphics/device.cpp:76-100 | the resettable pool and then, only if it was created, the transient pool, both on the graphics family |
| Devices.Device.SubmitOneTime | internal/graphics/device.cpp:156-191 | the recorded commands become exactly one more submission, waited on (the one-time command buffer is allocated from the transient pool and freed after the wait; that allocation and free are not recorded) |
| Devices.Device.Destroy | internal/graphics/device.cpp:20-26 | the persistent pool, the transient pool and then the device are released, in that order |
| Devices.AllocateAndBind | internal/graphics/buffer.cpp:64-77 | the allocation has the required size and the first suitable memory type; no suitable type throws; a failed allocation returns before the bind; the bind is at offset 0 |
| Vulkan.Driver.Create | internal/graphics/buffer.cpp:57-62 | a successful creation returns a fresh, non-null, live handle recording its create-info; a failure returns VK_NULL_HANDLE and changes nothing |
| Vulkan.Driver.CreateMany | internal/renderer/render_state.cpp:82-88 | a successful allocation of N objects returns N consecutive fresh handles; a failure returns N null handles and changes nothing |
| Vulkan.Driver.Release | internal/graphics/buffer.cpp:40-42 | the handle is no longer live and its release is logged |
| Vulkan.Driver.ReleaseInOrder | internal/graphics/render_pass.cpp:17-21 | every handle of the list is released, in list order |
| Vulkan.Driver.BindMemory | internal/graphics/buffer.cpp:77 | the resource is bound to the memory at the offset, nothing else changes |
| Vulkan.Driver.MapMemory | internal/graphics/buffer.cpp:15 | the memory object is mapped, nothing else changes |
| Vulkan.Driver.UnmapMemory | internal/graphics/buffer.cpp:19 | the memory object is no longer mapped, nothing else changes |
| Vulkan.Driver.WriteMemory | internal/graphics/buffer.cpp:17 | the memory object holds the copied bytes, nothing else changes |
| Vulkan.Driver.SubmitAndWait | internal/graphics/device.cpp:176-191 | the command buffer is appended to the submissions, nothing else changes |
| Vulkan.Driver.UpdateDescriptorSets | internal/renderer/render_state.cpp:145 | the writes are appended to the descriptor updates as one batch, nothing else changes |
| Vulkan.CommandBuffer.Record | internal/renderer/render_state.cpp:164-166 | each vkCmd* call appends exactly its command |
| Buffers.Buffer.constructor | internal/graphics/buffer.hpp:9-16 | an unbuilt product has no device, null handles and size 0 |
| Buffers.Buffer.CopyDataToMemory | internal/graphics/buffer.cpp:10-20 | with a live device, the memory is mapped, receives exactly the first `size` bytes of the source and is unmapped again, and nothing else changes; an expired device is dereferenced (`Aborted(NullDereference)`) and changes nothing |
| Buffers.Buffer.TransferBufferToBuffer | internal/graphics/buffer.cpp:22-34 | with a live device, exactly one submission holding one copy of `size` bytes from the source into this buffer; an expired device is dereferenced (`Aborted(NullDereference)`) and changes nothing |
| Buffers.Buffer.Destroy | internal/graphics/buffer.cpp:36-43 | with a live device, the memory is freed before the buffer is destroyed; an expired device is dereferenced (`Aborted(NullDereference)`) and changes nothing |
| Buffers.BufferBuilder.constructor | internal/graphics/buffer.cpp:45-57 | a new builder has a fresh, empty product and zeroed settings |
| Buffers.BufferBuilder.SetDevice | internal/graphics/buffer.cpp:47-50 | the device goes to the builder and the product; every other setting is unchanged |
| Buffers.BufferBuilder.SetSize | internal/graphics/buffer.cpp:52-57 | the size goes to the builder and the product; every other setting is unchanged |
| Buffers.BufferBuilder.SetUsage | internal/graphics/buffer.cpp:52-57 | only the usage changes |
| Buffers.BufferBuilder.SetProperties | internal/graphics/buffer.cpp:64-69 | only the memory properties change |
| Buffers.BufferBuilder.Build | internal/graphics/buffer.cpp:45-80 | building without a product dereferences null; a creation failure returns null before any memory query; a missing memory type throws at `value()`; an allocation failure returns null and leaves the buffer live; success binds at offset 0 and moves the product out, leaving the builder without one |
| Buffers.CreateAndBindBuffer | internal/graphics/buffer.cpp:52-77 | the exclusive buffer of the configured size and usage, then the allocation and bind, as far as each step succeeds |
| Buffers.ConstructBuffer | internal/graphics/buffer.hpp:19 | the constructor-style buffer: fresh buffer and memory handles, bound at offset 0, with the requested size and device |
| Buffers.CreatePresetBuilder | internal/graphics/buffer.cpp:82-102 | each director preset sets its usage and properties; only the uniform preset sets the size, to sizeof(UniformBufferObject) |
| Buffers.PresetUsage | internal/graphics/buffer.cpp:82-102 | TRANSFER_SRC only for staging; TRANSFER_DST for vertex and index; VERTEX, INDEX and UNIFORM usage each for exactly its own preset |
| Buffers.PresetProperties | internal/graphics/buffer.cpp:82-102 | DEVICE_LOCAL exactly for vertex and index buffers; HOST_VISIBLE and HOST_COHERENT exactly for staging and uniform buffers |
| Images.SpecialisedMasksAreSupported | internal/graphics/image.hpp:257-292 | every specialised transition names, on each side, only accesses that its stages perform |
| Images.UploadThenReadChains | internal/graphics/image.hpp:270-292 | the upload transition's destination access and stage are the read transition's source access and stage |
| Images.ImageLayoutTransitionBuilder.constructor | internal/graphics/image.cpp:150-160 | the product's barrier has its sType, ignores queue-family ownership, covers mip 0 and layer 0, and has zero stage masks |
| Images.ImageLayoutTransitionBuilder.Restart | internal/graphics/image.cpp:150-160 | a fresh product with the same defaults |
| Images.ImageLayoutTransitionBuilder.SetSrcAccessMask | internal/graphics/image.hpp:191-194 | writes only the barrier's source access mask |
| Images.ImageLayoutTransitionBuilder.SetDstAccessMask | internal/graphics/image.hpp:195-198 | writes only the destination access mask |
| Images.ImageLayoutTransitionBuilder.SetOldLayout | internal/graphics/image.hpp:199-202 | writes only the old layout |
| Images.ImageLayoutTransitionBuilder.SetNewLayout | internal/graphics/image.hpp:203-206 | writes only the new layout |
| Images.ImageLayoutTransitionBuilder.SetSrcQueueFamilyIndex | internal/graphics/image.hpp:207-210 | writes only the source queue family |
| Images.ImageLayoutTransitionBuilder.SetDstQueueFamilyIndex | internal/graphics/image.hpp:211-214 | writes only the destination queue family |
| Images.ImageLayoutTransitionBuilder.SetImage | internal/graphics/image.hpp:215-219 | the barrier takes both the image handle and the image's aspect flags |
| Images.ImageLayoutTransitionBuilder.SetBaseMipLevel | internal/graphics/image.hpp:220-223 | writes only the base mip level |
| Images.ImageLayoutTransitionBuilder.SetLevelCount | internal/graphics/image.hpp:224-227 | writes only the level count |
| Images.ImageLayoutTransitionBuilder.SetBaseArrayLayer | internal/graphics/image.hpp:228-231 | writes only the base array layer |
| Images.ImageLayoutTransitionBuilder.SetLayerCount | internal/graphics/image.hpp:232-235 | writes only the layer count |
| Images.ImageLayoutTransitionBuilder.SetSrcStageMask | internal/graphics/image.hpp:236-239 | writes only the source stage mask |
| Images.ImageLayoutTransitionBuilder.SetDstStageMask | internal/graphics/image.hpp:240-243 | writes only the destination stage mask |
| Images.ImageLayoutTransitionBuilder.Build | internal/graphics/image.cpp:162-170 | requires an image to be set; returns the configured transition and restarts, so nothing of it reaches the next product |
| Images.CreateTransitionBuilder | internal/graphics/image.hpp:251-292 | sets both layouts; the three specialisations also set their access and stage masks, and any other pair sets no mask |
| Images.Image.constructor | internal/graphics/image.hpp:43 | the builder's product before configuration |
| Images.Image.Initialised | internal/graphics/image.cpp:9-11 | the member-initialiser list of the constructor-style image |
| Images.Image.Destroy | internal/graphics/image.cpp:63-68 | with a live device, the memory is freed before the image is destroyed; an expired device is dereferenced (`Aborted(NullDereference)`) and changes nothing |
| Images.Image.TransitionImageLayout | internal/graphics/image.cpp:70-79 | with a live device, exactly one submission holding the transition's pipeline barrier; an expired device is dereferenced (`Aborted(NullDereference)`) and changes nothing |
| Images.Image.CopyBufferToImage | internal/graphics/image.cpp:81-114 | with a live device, exactly one submission copying the buffer over the whole image: zero offsets, width x height x 1, the image's aspect, mip 0, one layer, TRANSFER_DST layout; an expired device is dereferenced (`Aborted(NullDereference)`) and changes nothing |
| Images.Image.CreateImageView | internal/graphics/image.cpp:116-148 | with a live device, a fresh live 2D view of the first level and layer with the image's format and aspect and the identity swizzle, or VK_NULL_HANDLE with nothing changed when creation fails; an expired device is dereferenced (`Aborted(NullDereference)`) and changes nothing |
| Images.ConstructImage | internal/graphics/image.cpp:9-61 | an expired device is dereferenced before anything is created (`Aborted(NullDereference)`, nothing changed); otherwise a 2D image of depth 1, one mip, one layer, one sample, exclusive, initially UNDEFINED; a creation failure returns before the memory query; an allocation failure returns before the bind; a missing memory type throws |
| Images.ImageBuilder.constructor | internal/graphics/image.hpp:95-104 | a new builder holds a fresh product |
| Images.ImageBuilder.SetDevice | internal/graphics/image.hpp:106-110 | writes the device to the builder and the product |
| Images.ImageBuilder.SetImageType | internal/graphics/image.hpp:111-114 | writes the builder only |
| Images.ImageBuilder.SetFormat | internal/graphics/image.hpp:115-118 | writes the product only |
| Images.ImageBuilder.SetWidth | internal/graphics/image.hpp:119-122 | writes the product only |
| Images.ImageBuilder.SetHeight | internal/graphics/image.hpp:123-126 | writes the product only |
| Images.ImageBuilder.SetDepth | internal/graphics/image.hpp:127-130 | writes the product only |
| Images.ImageBuilder.SetTiling | internal/graphics/image.hpp:131-134 | writes the builder only |
| Images.ImageBuilder.SetUsage | internal/graphics/image.hpp:135-138 | writes the builder only |
| Images.ImageBuilder.SetProperties | internal/graphics/image.hpp:139-142 | writes the builder only |
| Images.ImageBuilder.SetMipLevels | internal/graphics/image.hpp:143-146 | writes the builder only |
| Images.ImageBuilder.SetArrayLayers | internal/graphics/image.hpp:147-150 | writes the builder only |
| Images.ImageBuilder.SetSamples | internal/graphics/image.hpp:151-154 | writes the builder only |
| Images.ImageBuilder.SetSharingMode | internal/graphics/image.hpp:155-158 | writes the builder only |
| Images.ImageBuilder.SetInitialLayout | internal/graphics/image.hpp:159-162 | writes the builder only |
| Images.ImageBuilder.SetAspectFlags | internal/graphics/image.hpp:163-166 | writes the product only |
| SwapChains.SwapChain.constructor | internal/graphics/swapchain.hpp:45-70 | the image views, depth view, extent and formats the render pass reads |
| RenderPasses.Describe | internal/graphics/render_pass.hpp:77-111 | a colour attachment clears, stores and ends in PRESENT_SRC; a depth attachment clears, does not store and ends in DEPTH_STENCIL_ATTACHMENT_OPTIMAL; both have one sample and start UNDEFINED |
| RenderPasses.DescriptionsFollowDeclarations | internal/graphics/render_pass.hpp:75-124 | description i is the description of the i-th declared attachment |
| RenderPasses.ReferencesMatchDeclarations | internal/graphics/render_pass.hpp:88-119 | each reference names an attachment of its own kind, in that kind's layout and in increasing order, and every attachment of that kind has one |
| RenderPasses.OneReferencePerAttachment | internal/graphics/render_pass.hpp:88-119 | colour and depth references together number the attachments |
| RenderPasses.MasksDependOnKindsOnly | internal/graphics/render_pass.hpp:96-123 | the stage and access masks are the bits of the kinds declared at least once |
| RenderPasses.MasksIndependentOfOrder | internal/graphics/render_pass.hpp:96-123 | the same attachments declared in any order give the same masks |
| RenderPasses.RepeatedKindKeepsMasks | internal/graphics/render_pass.hpp:96-123 | declaring another attachment of a kind already present leaves the masks unchanged |
| RenderPasses.AppendDeclaration | internal/graphics/render_pass.hpp:75-124 | one more declaration appends one description and one reference of its own kind, naming the previous attachment count |
| RenderPasses.AppendDeclarationMasks | internal/graphics/render_pass.hpp:96-123 | one more declaration ORs its stage bit into both stage masks and its access bit into the destination access mask |
| RenderPasses.AddKeepsLists | internal/graphics/render_pass.hpp:75-124 | when the lists describe the declarations so far, they still do after one more attachment is added |
| RenderPasses.AddKeepsMasks | internal/graphics/render_pass.hpp:96-123 | when the dependency masks are those of the declarations so far, ORing in one more attachment's bits gives those of the extended declarations |
| RenderPasses.RenderPass.constructor | internal/graphics/render_pass.hpp:21 | the product before build: no device, null handle, no framebuffers |
| RenderPasses.RenderPass.GetFramebuffer | internal/graphics/render_pass.hpp:37-40 | defined only below the framebuffer count, and returns framebuffer `index`, the one made for swapchain image `index` |
| RenderPasses.RenderPass.Destroy | internal/graphics/render_pass.cpp:10-22 | nothing when the device is gone; otherwise every framebuffer in order and then the render pass |
| RenderPasses.CreateFramebuffers | internal/graphics/render_pass.cpp:55-74 | one slot per image view; slot i is a fresh framebuffer over image view i and the shared depth view, at the swapchain extent with one layer, or null when its creation failed, and the loop goes on |
| RenderPasses.RenderPassBuilder.constructor | internal/graphics/render_pass.hpp:53-73 | external source subpass, destination subpass 0, zero masks, graphics bind point, no attachments |
| RenderPasses.RenderPassBuilder.Restart | internal/graphics/render_pass.hpp:59-67 | a new product and the fixed fields set again; the attachment lists and accumulated masks are kept |
| RenderPasses.RenderPassBuilder.AddColorAttachment | internal/graphics/render_pass.hpp:75-99 | one colour description and reference appended, naming the old attachment count; COLOR_ATTACHMENT_OUTPUT and COLOR_ATTACHMENT_WRITE ORed in |
| RenderPasses.RenderPassBuilder.AddDepthAttachment | internal/graphics/render_pass.hpp:100-124 | one depth description and reference appended; EARLY_FRAGMENT_TESTS and DEPTH_STENCIL_ATTACHMENT_WRITE ORed in |
| RenderPasses.RenderPassBuilder.SetDevice | internal/graphics/render_pass.hpp:126-130 | the device goes to the builder and then to the product, whose other fields are unchanged; after a build has handed the product over, the product write dereferences null (`Aborted(NullDereference)`) |
| RenderPasses.RenderPassBuilder.SetSwapChain | internal/graphics/render_pass.hpp:131-134 | the swapchain goes to the builder only |
| RenderPasses.RenderPassBuilder.Build | internal/graphics/render_pass.cpp:24-78 | requires a live device and a swapchain; one subpass over the colour references and the first depth reference, and one dependency; a creation failure returns null before any framebuffer; otherwise one framebuffer slot per image view, and the product is moved out without a restart |
| Vertices.ConcreteLayout | internal/engine/vertex.hpp:12-15 | sizeof(Vertex) is 48 and the fields lie at 0, 12, 24 and 40 |
| Vertices.FieldOffsetsIncrease | internal/engine/vertex.hpp:12-15 | field offsets strictly increase in declaration order and stay below the stride |
| Vertices.FieldsTileVertex | internal/engine/vertex.hpp:12-15 | each field ends where the next begins, and the last one at the end of the vertex |
| Vertices.BindingDescription | internal/engine/vertex.hpp:17-28 | binding 0, stride sizeof(Vertex), per-vertex rate |
| Vertices.AttributeDescriptions | internal/engine/vertex.hpp:29-58 | four attributes: location i on binding 0 at field i's offset, in a format exactly as wide as field i |
| Vertices.AttributesTileStride | internal/engine/vertex.hpp:29-58 | attribute i ends where attribute i + 1 begins, and the last one ends at the stride |
| Vertices.DescBindingDescription | internal/engine/vertex_desc.hpp:12-21 | the same binding as Vertex's |
| Vertices.DescAttributeDescriptions | internal/engine/vertex_desc.hpp:23-32 | two attributes on binding 0: position as R32G32_SFLOAT at location 0, colour as R32G32B32A32_SFLOAT at location 1, at their fields' offsets |
| Vertices.DescAttributesStayInFields | internal/engine/vertex_desc.hpp:23-32 | each attribute reads inside the field it names |
| Uniforms.UniformDescriptor.constructor | internal/engine/uniform.hpp:9-17 | an empty descriptor |
| Uniforms.UniformDescriptorBuilder.constructor | internal/engine/uniform.hpp:41-44 | a new builder holds a fresh, empty product |
| Uniforms.UniformDescriptorBuilder.Restart | internal/engine/uniform.hpp:35-38 | a fresh, empty product |
| Uniforms.UniformDescriptorBuilder.AddSetLayoutBinding | internal/engine/uniform.hpp:46-49 | appends one binding and leaves the writes unchanged |
| Uniforms.UniformDescriptorBuilder.AddSetWrites | internal/engine/uniform.hpp:50-53 | appends one write and leaves the bindings unchanged |
| Uniforms.UniformDescriptorBuilder.Build | internal/engine/uniform.hpp:55-60 | returns the product with exactly the items added since the last build, in call order, and holds a fresh, empty one afterwards |
| Pipelines.Pipeline.constructor | internal/graphics/pipeline.cpp:74 | the product before build: no device, null handles, zero extent |
| Pipelines.Pipeline.Destroy | internal/graphics/pipeline.cpp:54-64 | nothing when the device is gone; otherwise the pipeline layout, the set layout and then the pipeline |
| Pipelines.Pipeline.RecordBind | internal/graphics/pipeline.cpp:361-374 | records the bind of this pipeline, then a viewport and a scissor covering its extent |
| Pipelines.PipelineCreateInfo | internal/graphics/pipeline.cpp:270-291 | exactly the builder's stage infos; one viewport, one scissor and one colour-blend attachment with blending enabled, the other fixed-function settings as configured; subpass 0 and no base pipeline (index -1) |
| Pipelines.PipelineBuilder.constructor | internal/graphics/pipeline.cpp:66-75 | empty lists and a fresh product |
| Pipelines.PipelineBuilder.Restart | internal/graphics/pipeline.cpp:66-75 | the module, stage, dynamic-state and push-constant lists are cleared and a fresh product made; the scalar settings are kept |
| Pipelines.PipelineBuilder.AddShaderStage | internal/graphics/pipeline.cpp:77-107 | an unreadable file changes nothing; a readable one with an expired device is dereferenced and changes nothing; otherwise the new module (a fresh handle recording the code, or VK_NULL_HANDLE when creation fails) and one stage info naming it are appended, and earlier objects keep their records |
| Pipelines.PipelineBuilder.AddVertexShaderStage | internal/graphics/pipeline.cpp:77-91 | as AddShaderStage with the VERTEX stage: nothing for an unreadable file, an abort for an expired device, otherwise the new module (fresh or VK_NULL_HANDLE) and a VERTEX stage info naming it, earlier objects kept |
| Pipelines.PipelineBuilder.AddFragmentShaderStage | internal/graphics/pipeline.cpp:93-107 | as AddShaderStage with the FRAGMENT stage: nothing for an unreadable file, an abort for an expired device, otherwise the new module (fresh or VK_NULL_HANDLE) and a FRAGMENT stage info naming it, earlier objects kept |
| Pipelines.PipelineBuilder.AddDynamicState | internal/graphics/pipeline.cpp:109-112 | appends the state after those already added |
| Pipelines.PipelineBuilder.SetDrawTopology | internal/graphics/pipeline.cpp:114-118 | sets topology and primitive restart only |
| Pipelines.PipelineBuilder.SetFixedFunction | internal/graphics/pipeline.cpp:179-236 | sets the rasterisation, multisample, depth and blend settings only |
| Pipelines.PipelineBuilder.SetExtent | internal/graphics/pipeline.cpp:120-124 | the builder's and the product's extent become the same value, the product otherwise unchanged; after a build has handed the product over, the product write dereferences null (`Aborted(NullDereference)`) |
| Pipelines.PipelineBuilder.SetDevice | internal/graphics/pipeline.cpp:128-131 | the device build uses goes to the builder and to the product, the product otherwise unchanged; after a build has handed the product over, the product write dereferences null (`Aborted(NullDereference)`) |
| Pipelines.PipelineBuilder.SetRenderPass | internal/graphics/pipeline.cpp:129 | the render pass build uses |
| Pipelines.PipelineBuilder.Build | internal/graphics/pipeline.cpp:126-309 | requires a live device and a render pass; each failing creation returns null, skips the later steps and leaves the shader modules alive; success moves the product out and then destroys every module |
| Pipelines.CreatePipelineObjects | internal/graphics/pipeline.cpp:240-299 | the set layout, the pipeline layout over it and the pipeline over that, stopping at the first failure |
| Pipelines.CreateColorDepthRasterizerBuilder | internal/graphics/pipeline.cpp:311-359 | dynamic viewport and scissor; a triangle list without restart; back-face culling with CCW front faces; depth test and write with LESS; SRC_ALPHA / ONE_MINUS_SRC_ALPHA blending |
| Meshes.IndexBytes | internal/renderer/mesh.cpp:33-39 | two bytes per index |
| Meshes.DecodeIndices | internal/renderer/mesh.cpp:33-39 | one index per two bytes |
| Meshes.IndexByteRoundTrip | internal/renderer/mesh.cpp:39 | the two bytes of an index give it back |
| Meshes.IndexBytesRoundTrip | internal/renderer/mesh.cpp:33-39 | decoding the index staging bytes gives back exactly the index array |
| Meshes.Stage | internal/renderer/mesh.cpp:16-20 | a fresh host-visible, coherent TRANSFER_SRC buffer of the data's size whose memory holds the data, unmapped again |
| Meshes.Upload | internal/renderer/mesh.cpp:16-29 | the staging buffer, a device-local destination of the same size with the given usage, one submitted copy, then the staging memory and buffer released; only the destination stays live |
| Meshes.Mesh.constructor | internal/renderer/mesh.cpp:49-53 | keeps both arrays and uploads them |
| Meshes.Mesh.InitVerticesAndIndices | internal/renderer/mesh.cpp:10-47 | the vertex upload completes before the index upload; the vertex buffer holds sizeof(Vertex) bytes per vertex and the index buffer two bytes per index |
| Meshes.Mesh.Destroy | internal/renderer/mesh.cpp:80-84 | the index buffer is released before the vertex buffer; a buffer whose device has expired aborts the destructor there, after what was released before it |
| Meshes.VertexThenIndexUpload | internal/renderer/mesh.cpp:10-47 | a vertex upload followed by an index upload makes a mesh upload |
| Meshes.SceneVertices | internal/renderer/mesh.cpp:57-66 | one vertex per scene vertex, in source order: its position, a zero normal, opaque black, and channel-0 (u, v) or (0, 0) |
| Meshes.FlattenTriangles | internal/renderer/mesh.cpp:68-75 | with triangles only, flat index 3f + k is corner k of face f |
| Meshes.TruncatedIndices | internal/renderer/mesh.cpp:68-75 | the index list as written: every face index modulo 2^16, in face order |
| Meshes.TruncationKeepsIndicesIff | internal/renderer/mesh.cpp:68-75 | the narrowed list equals the face list exactly when every index is below 2^16 |
| Meshes.TruncatedTriangleAliasesFirstVertices | internal/renderer/mesh.cpp:72-74 | a triangle over vertices 65536, 65537 and 65538 becomes the triangle 0, 1, 2 |
| Meshes.FlattenFaces | internal/renderer/mesh.cpp:68-75 | the checked flattening: the face indices corner by corner when all fit in 16 bits, and nothing exactly when one does not |
| Meshes.PushFaceIndices | internal/renderer/mesh.cpp:68-75 | the face loop as written: index 3f + k is corner k of face f modulo 2^16, which is exactly the truncated index list |
| Meshes.MeshFromScene | internal/renderer/mesh.cpp:55-78 | a mesh whose vertices are the scene's (position, zero normal, opaque black, channel-0 (u, v) or (0, 0)), whose index 3f + k is corner k of face f modulo 2^16 (the truncated list, never rejected), and whose buffers hold the uploaded vertex and index bytes |
| Textures.UploadSize | internal/renderer/texture.cpp:27-41 | width x height x 4, wrapped modulo 2^32, and exactly the product when that is below 2^32 |
| Textures.UploadSubmissionsChain | internal/renderer/texture.cpp:68-79 | the first barrier leaves the image in the layout the copy writes in; the second takes it to the sampled layout and waits on what the first made the copy wait for; all three cover the same image and aspect |
| Textures.TextureBuildReleasesStaging | internal/renderer/texture.cpp:49-118 | the staging buffer and its memory, which held exactly the uploaded pixels, are released (memory first), and the copy reads from that buffer |
| Textures.TextureBuildKeepsViewAndSampler | internal/renderer/texture.cpp:83-114 | a created view (of the texture's image) and sampler are fresh, live and made from the texture's descriptions |
| Textures.TextureBuildLeavesOnlyViewAndSampler | internal/renderer/texture.cpp:23-119 | the live set grows by exactly the view and the sampler a build created: the staging buffer and its memory are gone again |
| Textures.TextureBuildKeepsEarlierObjects | internal/renderer/texture.cpp:23-119 | every object created before the build keeps its record |
| Textures.CreateImageResources | internal/renderer/texture.cpp:68-114 | the upload, the view and the sampler, in that order |
| Textures.CreateStagingBuffer | internal/renderer/texture.cpp:49-56 | the staging preset of the upload size filled with the pixels; an unbuilt buffer is dereferenced, a missing memory type throws |
| Textures.UploadToImage | internal/renderer/texture.cpp:68-79 | the transition to TRANSFER_DST, the copy and the transition to SHADER_READ_ONLY, each submitted on its own, in that order |
| Textures.StageAndUpload | internal/renderer/texture.cpp:49-114 | a staging failure aborts (BadOptionalAccess exactly when the memory type is missing); with no image the build aborts leaving the filled staging buffer live; otherwise the upload, the view and the sampler, and then the staging buffer is released |
| Textures.Texture.constructor | internal/renderer/texture.hpp:26 | a product with zero extent, null handles and no image |
| Textures.Texture.Destroy | internal/renderer/texture.cpp:12-21 | the image is released first; the sampler and then the view only while the device is alive; an image whose own device has expired aborts the destructor before anything is released |
| Textures.TextureBuilder.constructor | internal/renderer/texture.hpp:59-70 | a fresh product, and the load-from-file flag is false |
| Textures.TextureBuilder.Restart | internal/renderer/texture.hpp:61-64 | a fresh product; filename, flag, format, tiling and filter are kept |
| Textures.TextureBuilder.SetDevice | internal/renderer/texture.hpp:72-76 | the device goes to the builder and the product |
| Textures.TextureBuilder.SetWidth | internal/renderer/texture.hpp:78-81 | writes the product's width only |
| Textures.TextureBuilder.SetHeight | internal/renderer/texture.hpp:82-85 | writes the product's height only |
| Textures.TextureBuilder.SetImageData | internal/renderer/texture.hpp:87-91 | stores the pixels and clears the load-from-file flag |
| Textures.TextureBuilder.SetTextureFilename | internal/renderer/texture.hpp:93-97 | stores the filename and sets the flag, so the last of the two calls wins |
| Textures.TextureBuilder.SetFormat | internal/renderer/texture.hpp:99-102 | writes the builder only |
| Textures.TextureBuilder.SetTiling | internal/renderer/texture.hpp:103-106 | writes the builder only |
| Textures.TextureBuilder.SetSamplerFilter | internal/renderer/texture.hpp:107-110 | writes the builder only |
| Textures.TextureBuilder.LoadImageData | internal/renderer/texture.cpp:29-47 | a failed load reports failure and changes nothing; a loaded file replaces the extent, and the pixels are exactly the upload size |
| Textures.TextureBuilder.Build | internal/renderer/texture.cpp:23-119 | a failed load returns null and changes nothing; a loaded file sets the extent and pixels, all of which are uploaded; a failed staging buffer or a missing image aborts; a failed sampler returns null and keeps the product; success hands over the product and restarts |
| Textures.CreateSRGBTextureBuilder | internal/renderer/texture.cpp:121-126 | sRGB format, optimal tiling, nearest filtering |
| RenderStates.CapacityAppend | internal/renderer/render_state.cpp:45-51 | the capacity of concatenated pool sizes is the sum of their capacities |
| RenderStates.SetWritesFill | internal/renderer/render_state.cpp:107-146 | each set gets exactly one uniform-buffer descriptor and one combined image sampler, and nothing else |
| RenderStates.DirectorPoolCoversWrites | internal/renderer/render_state.cpp:152-156 | after the director's pool sizes, the pool holds, for every descriptor type, at least N times what one set's writes fill |
| RenderStates.LegacyPoolIgnoresPoolSizes | internal/renderer/renderstate.cpp:60-66 | the older build's pool has no capacity for any type, while N sets need N uniform buffers and N samplers, which a director-configured pool would hold |
| RenderStates.TextureImageInfo | internal/renderer/render_state.cpp:125-133 | the texture's sampler and view when the weak_ptr locks, null handles otherwise, always in SHADER_READ_ONLY_OPTIMAL layout |
| RenderStates.DescriptorWritesFor | internal/renderer/render_state.cpp:107-146 | one batch of writes per descriptor set |
| RenderStates.NoFailureIffAllBuilt | internal/renderer/render_state.cpp:94-105 | the uniform-buffer loop fails nowhere exactly when every buffer is created, has a memory type and is allocated |
| RenderStates.UniformBuffersKeep | internal/renderer/render_state.cpp:94-105 | the loop keeps every earlier object and advances the handles by two per buffer |
| RenderStates.UniformBuffersPlaced | internal/renderer/render_state.cpp:94-105 | uniform buffer j is handle n + 2j, live, mapped and bound to its memory n + 2j + 1 |
| RenderStates.SetsAllocatedObjects | internal/renderer/render_state.cpp:59-88 | the pool is created with maxSets N and the builder's pool sizes; the N sets follow it, all with the pipeline's set layout |
| RenderStates.RenderStateKeepsEarlierObjects | internal/renderer/render_state.cpp:53-150 | a successful build creates 1 + 3N objects, all fresh, and changes no earlier object |
| RenderStates.RenderStateOwnsPoolAndSets | internal/renderer/render_state.cpp:59-88 | after a build the pool and all N sets are live |
| RenderStates.RenderStateOwnsUniformBuffers | internal/renderer/render_state.cpp:90-105 | after a build every uniform buffer is live, sized for the MVP, mapped and bound |
| RenderStates.RenderStateWritesEverySet | internal/renderer/render_state.cpp:107-146 | one update per set, in order; set j is written with uniform buffer j and the texture |
| RenderStates.MeshRenderState.constructor | internal/renderer/render_state.hpp:27 | a state with no device, pipeline or mesh and empty per-frame vectors |
| RenderStates.MeshRenderState.Destroy | internal/renderer/render_state.cpp:15-23 | nothing when the device is gone; otherwise the pool is destroyed and the pipeline dropped |
| RenderStates.MeshRenderState.UpdateUniformBuffers | internal/renderer/render_state.cpp:25-33 | only mapped slot `imageIndex` is written, with the whole MVP block |
| RenderStates.MeshRenderState.RecordDescriptorSets | internal/renderer/render_state.cpp:35-39 | binds set `imageIndex` with the pipeline's layout; a missing pipeline is dereferenced |
| RenderStates.MeshRenderState.RecordDraw | internal/renderer/render_state.cpp:158-167 | one vertex buffer at offset 0, a uint16 index buffer, then one indexed draw of the mesh's index count with one instance |
| RenderStates.MeshRenderState.CreatePoolAndSets | internal/renderer/render_state.cpp:59-88 | a failed pool returns null; a missing pipeline is dereferenced; a failed set allocation returns null; otherwise the N sets follow the pool |
| RenderStates.MeshRenderState.CreateBuffersAndWriteSets | internal/renderer/render_state.cpp:90-146 | the uniform buffers and then the writes; the first failing buffer aborts |
| RenderStates.MeshRenderState.CreateUniformBuffers | internal/renderer/render_state.cpp:90-105 | N buffers built and mapped one by one, stopping at the first failure |
| RenderStates.MeshRenderState.CreateLegacyUniformBuffers | internal/renderer/renderstate.cpp:90-101 | N constructor-style buffers of the uniform size, each mapped |
| RenderStates.BuildUniformBuffer | internal/renderer/render_state.cpp:96-104 | the uniform preset of sizeof(MVP) built and its memory mapped; a null buffer is dereferenced |
| RenderStates.WriteDescriptorSets | internal/renderer/render_state.cpp:107-146 | per set, one update of its uniform-buffer write and its image write |
| RenderStates.MeshRenderStateBuilder.constructor | internal/renderer/render_state.hpp:88-91 | a fresh product |
| RenderStates.MeshRenderStateBuilder.Restart | internal/renderer/render_state.hpp:93-96 | a fresh product; pool sizes, frame count and texture are kept |
| RenderStates.MeshRenderStateBuilder.SetDevice | internal/renderer/render_state.hpp:98-102 | the device goes to the builder and then to the product, whose other fields are unchanged; after a build has handed the product over, the product write dereferences null (`Aborted(NullDereference)`) |
| RenderStates.MeshRenderStateBuilder.SetPipeline | internal/renderer/render_state.cpp:41-44 | the pipeline goes to the product, whose other fields are unchanged; after a build has handed the product over, the product write dereferences null (`Aborted(NullDereference)`) |
| RenderStates.MeshRenderStateBuilder.SetMesh | internal/renderer/render_state.hpp:114-117 | the mesh goes to the product only, whose other fields are unchanged; after a build has handed the product over, the product write dereferences null (`Aborted(NullDereference)`) |
| RenderStates.MeshRenderStateBuilder.SetFrameInFlightCount | internal/renderer/render_state.hpp:105-108 | stores N |
| RenderStates.MeshRenderStateBuilder.SetTexture | internal/renderer/render_state.hpp:109-112 | the texture goes to the builder only |
| RenderStates.MeshRenderStateBuilder.AddPoolSize | internal/renderer/render_state.cpp:45-51 | appends one pool size whose count is N at the time of the call, adding N to that type's capacity |
| RenderStates.MeshRenderStateBuilder.Build | internal/renderer/render_state.cpp:53-150 | a second build dereferences the product already handed over (`Aborted(NullDereference)`, nothing changed); otherwise pool, N sets, N mapped uniform buffers of sizeof(MVP) and N descriptor updates; each failure path as in the source; success hands over the product without a restart |
| RenderStates.MeshRenderStateBuilder.BuildLegacy | internal/renderer/renderstate.cpp:53-125 | a second build dereferences the product already handed over (`Aborted(NullDereference)`, nothing changed); otherwise the older build: the pool is created from an empty pool-size list whatever was added, then the sets and N mapped uniform buffers |
| RenderStates.CreateUniformAndSamplerRenderStateBuilder | internal/renderer/render_state.cpp:152-156 | adds a uniform-buffer pool size and then a combined-image-sampler pool size |
| Renderers.SignedOf | internal/renderer/renderer.hpp:102-105 | the uint32_t buffering type stored in an int: the one 32-bit signed value congruent to it modulo 2^32, equal to it exactly when it is below 2^31 |
| Renderers.Renderer.constructor | internal/renderer/renderer.hpp:35-44 | buffering type 2, back-buffer index 0, no render pass, render states or back buffers |
| Renderers.Renderer.GetRenderPass | internal/renderer/renderer.hpp:66-69 | the render pass the renderer owns, not a copy |
| Renderers.RendererBuilder.constructor | internal/renderer/renderer.hpp:87-90 | a fresh product with buffering type 2 |
| Renderers.RendererBuilder.Restart | internal/renderer/renderer.hpp:80-84 | a fresh product with buffering type 2; the builder's device and swapchain are kept |
| Renderers.RendererBuilder.SetDevice | internal/renderer/renderer.hpp:92-96 | the device goes to the builder and then to the product, whose other fields are unchanged; without a product the write dereferences null |
| Renderers.RendererBuilder.SetSwapChain | internal/renderer/renderer.hpp:97-101 | the swapchain goes to the builder and then to the product, whose other fields are unchanged; without a product the write dereferences null |
| Renderers.RendererBuilder.SetBufferingType | internal/renderer/renderer.hpp:102-105 | the product's buffering type only, converted to int (equal to the argument below 2^31); without a product the write dereferences null |

## Left out

- The frame loop of the renderer is declared at internal/renderer/renderer.hpp:54-63, but its implementation is not part of this model. This covers registering render states, acquiring, recording, submitting and presenting back buffers, and swapping. internal/renderer/renderer.cpp is an older constructor stub and is not modelled.
- `RendererBuilder::build` and the renderer's destructor are not part of this model.
- GPU execution is not modelled: queues, semaphores, fences and the effect of recorded commands. A submission is only recorded.
- File, loader and windowing I/O is not modelled. The results of `read_binary_file`, `stbi_load` and the Assimp scene are parameters.
- Floating-point settings are not modelled: viewport sizes, depth bias, line width, blend constants, sampler LOD and anisotropy values, and the camera matrices. The MVP block written by `updateUniformBuffers` is a 192-byte parameter.
- A failed `vkCreate*` call is taken to leave VK_NULL_HANDLE in its out-handle. `create_shader_module` and `Image::createImageView` return an uninitialised local on failure, which Vulkan does not set.
- Scalar members that C++ leaves uninitialised start at zero or VK_NULL_HANDLE in the model. This covers the builders' frame count, formats, tiling and filters, the swapchain pointer of the renderer builder and of the renderer it makes, and the buffer and image handles of an unbuilt product.
- `ImageBuilder::build` and the image director are not part of this model. The texture build takes the built image as a parameter.
- The `BufferBuilder` and `PipelineBuilder` class declarations are not part of this model. Their constructors and setters are modelled from the members `build()` reads. Their rows cite the lines of `build()` that use each setting, and the rasteriser, depth and blend setters are modelled as one `SetFixedFunction`. Buffers.BufferBuilder.SetDevice and Buffers.BufferBuilder.SetSize are assumed to skip the product write when there is no product; if the unseen setters write through `m_product`, they would dereference null there instead.
- `UniformBufferObject::get_uniform_descriptor_set_writes` is not part of this model. It is the helper the older render-state build writes its sets with.
- `UniformDescriptorDirector::createMVPAndTextureBuilder` is not part of this model; the pipeline build takes its layout bindings as a parameter.
- The constructor-style `Buffer` is declared at internal/graphics/buffer.hpp:19, but its body is not part of this model.
- Mesh getters are taken to return the mesh's own fields.
- Meshes.SceneVertices: internal/renderer/mesh.cpp and its mesh class are written against an older three-field `Vertex` (position, colour, texture coordinate) and the constructor-style `Buffer`. Against the four-field `Vertex` of internal/engine/vertex.hpp the call at mesh.cpp:65 would bind the colour to the normal and does not compile. The model reads the three arguments as position, colour and (u, v), and leaves the normal at zero.
- Buffers.ConstructBuffer: assumes the unseen body performs the build steps, each succeeding, with the memory type `findMemoryTypeIndex` picks.
- Meshes.Mesh.InitVerticesAndIndices: requires every buffer creation, memory lookup and allocation to succeed, because the source checks none of them.
- Meshes.Mesh.constructor: requires the same of its upload.
- Meshes.MeshFromScene: requires the same of its upload. The vertex bytes it uploads are a parameter of the right length, because the float encoding of a vertex is not modelled.
- Meshes.Stage: requires the same of its staging buffer.
- Meshes.Upload: requires the same of its staging buffer and destination.
- Textures.TextureBuilder.Build: requires the built image, when there is one, to belong to a live device.
- Textures.TextureBuilder.Build: requires in-memory pixel data of at least `UploadSize` bytes. With less, the unchecked `memcpy` reads past the data, which is undefined behaviour the model does not describe.
- Buffers.Buffer.CopyDataToMemory: requires a source of at least `size` bytes, because the source pointer carries no length and a shorter one is over-read.
- RenderStates.MeshRenderStateBuilder.BuildLegacy: requires every constructor-style uniform buffer to find a memory type. Its descriptor-set writes are not modelled, because the helper that makes them is not part of this model.
- RenderStates.MeshRenderState.Destroy: models only the destructor's own body. The uniform buffers' destructors, which run afterwards, are not modelled; each locks the device without a check (see Buffers.Buffer.Destroy), so with an expired device they would dereference null even though the body returned early, and neither is the destruction of the shared pipeline when it was the last owner.
- RenderStates.MeshRenderState.UpdateUniformBuffers: requires `imageIndex` below the frame count, because the source indexes the vector unchecked.
- RenderStates.MeshRenderState.RecordDescriptorSets: requires the same.
- Ownership is modelled by the live set, not by C++ reference counting; a `shared_ptr` pipeline or mesh is a plain reference.
- Devices.Device.Destroy: requires a created device handle, because the destructor dereferences it unchecked.

## Findings

| source | as written | input that shows it | evidently intended | confidence | as-written member | corrected member |
|---|---|---|---|---|---|---|
| internal/renderer/mesh.cpp:68-75 | each unsigned face index is pushed into a `std::vector<uint16_t>`, which keeps it modulo 2^16; the scene constructor (Meshes.MeshFromScene) builds and uploads the mesh from these truncated indices | a scene of more than 65536 vertices with the triangle 65536, 65537, 65538 | reject or widen indices that do not fit in 16 bits, so every triangle keeps its vertices | not executed | Meshes.TruncatedTriangleAliasesFirstVertices | Meshes.FlattenFaces |
| internal/renderer/renderstate.cpp:60-66 | the descriptor pool is created from a fresh, empty local pool-size list, so the sizes added with `addPoolSize` are ignored | a builder configured by the director with frame count 2 | create the pool from the builder's pool sizes, as the later revision does | not executed | RenderStates.LegacyPoolIgnoresPoolSizes | RenderStates.DirectorPoolCoversWrites |
