/**
 * The graphics pipeline: the builder that collects shader stages, dynamic
 * states and fixed-function settings, creates the descriptor-set layout,
 * the pipeline layout and the pipeline in turn, and destroys the shader
 * modules once the pipeline exists; the director's defaults; binding the
 * pipeline while recording.
 */
module Pipelines {
  import opened Vulkan
  import opened Devices
  import opened Vertices
  import opened RenderPasses

  class Pipeline {
    var device: Device?
    var descriptorSetLayout: Handle
    var pipelineLayout: Handle
    var handle: Handle
    var extent: Extent2D

    constructor ()
      ensures device == null && descriptorSetLayout == NULL_HANDLE && pipelineLayout == NULL_HANDLE
      ensures handle == NULL_HANDLE && extent == Extent2D(0, 0)
    {
      device := null;
      descriptorSetLayout := NULL_HANDLE;
      pipelineLayout := NULL_HANDLE;
      handle := NULL_HANDLE;
      extent := Extent2D(0, 0);
    }

    /** The destructor: nothing when the device is gone; otherwise the pipeline layout, the set layout, then the pipeline. */
    method Destroy(drv: Driver)
      requires drv.Valid()
      modifies drv
      ensures drv.Valid()
      ensures (device == null || !device.alive) ==> drv.st == old(drv.st)
      ensures device != null && device.alive ==>
                drv.st == old(drv.st).(live := old(drv.st.live) - {pipelineLayout, descriptorSetLayout, handle},
                                       released := old(drv.st.released) + [pipelineLayout, descriptorSetLayout, handle])
    {
      if device == null || !device.alive {
        return;
      }
      drv.Release(pipelineLayout);
      drv.Release(descriptorSetLayout);
      drv.Release(handle);
    }

    /** recordBind: the pipeline, then a viewport and a scissor covering the pipeline's extent. */
    method RecordBind(commandBuffer: CommandBuffer, imageIndex: nat)
      modifies commandBuffer
      ensures commandBuffer.commands == old(commandBuffer.commands)
                + [BindPipeline(PIPELINE_BIND_POINT_GRAPHICS, handle), SetViewport(extent), SetScissor(0, 0, extent)]
    {
      commandBuffer.Record(BindPipeline(PIPELINE_BIND_POINT_GRAPHICS, handle));
      commandBuffer.Record(SetViewport(extent));
      commandBuffer.Record(SetScissor(0, 0, extent));
    }
  }

  /** Stage info `i` refers to shader module `i`: the two lists grow together. */
  ghost predicate StagesMatchModules(modules: seq<Handle>, stageInfos: seq<ShaderStageInfo>) {
    && |modules| == |stageInfos|
    && forall i :: 0 <= i < |modules| ==> stageInfos[i].shaderModule == modules[i]
  }

  /**
   * The create-info of the graphics pipeline build makes: every stage, the
   * Vertex input layout, one viewport, one scissor and one blend attachment
   * with blending always enabled, subpass 0 and no base pipeline.
   */
  function PipelineCreateInfo(stageInfos: seq<ShaderStageInfo>, fixed: FixedFunctionState, dynamicStates: seq<nat>,
                              layout: Handle, renderPass: Handle): (info: GraphicsPipelineCreateInfo)
    ensures info.stageCount == |info.stages| && info.stages == stageInfos
    ensures info.fixed.blendEnable && info.fixed == fixed.(blendEnable := true)
    ensures info.viewportCount == 1 && info.scissorCount == 1 && info.colorBlendAttachmentCount == 1
    ensures info.subpass == 0 && info.basePipelineHandle == NULL_HANDLE && info.basePipelineIndex == -1
  {
    GraphicsPipelineCreateInfo(stageInfos, |stageInfos|, BindingDescription(), AttributeDescriptions(),
                               fixed.(blendEnable := true), dynamicStates, 1, 1, 1, layout, renderPass, 0, NULL_HANDLE, -1)
  }

  class PipelineBuilder {
    var product: Pipeline?
    var device: Device?
    var renderPass: RenderPass?
    var modules: seq<Handle>
    var stageInfos: seq<ShaderStageInfo>
    var dynamicStates: seq<nat>
    var pushConstantRanges: seq<PushConstantRange>
    var extent: Extent2D
    var fixed: FixedFunctionState

    ghost predicate Valid()
      reads this
    {
      StagesMatchModules(modules, stageInfos)
    }

    /** A builder with zeroed settings, restarted. */
    constructor ()
      ensures Valid() && fresh(product) && modules == [] && dynamicStates == []
      ensures device == null && renderPass == null
    {
      device := null;
      renderPass := null;
      extent := Extent2D(0, 0);
      fixed := FixedFunctionState(0, false, false, false, 0, 0, 0, false, 0, false, false, false,
                                  false, false, 0, false, false, false, 0, 0, 0, 0, 0, 0, 0, false, 0);
      modules := [];
      stageInfos := [];
      dynamicStates := [];
      pushConstantRanges := [];
      product := new Pipeline();
    }

    /** The lists are cleared and a fresh product made; the scalar settings are kept. */
    method Restart()
      modifies this`modules, this`stageInfos, this`dynamicStates, this`pushConstantRanges, this`product
      ensures Valid()
      ensures modules == [] && stageInfos == [] && dynamicStates == [] && pushConstantRanges == []
      ensures fresh(product) && product.device == null && product.handle == NULL_HANDLE
    {
      modules := [];
      stageInfos := [];
      dynamicStates := [];
      pushConstantRanges := [];
      product := new Pipeline();
    }

    /**
     * A shader stage from the compiled file's contents, `None` when it cannot
     * be read (nothing changes then). `moduleOk` is the result of
     * vkCreateShaderModule; a failed module is logged and still recorded.
     */
    method AddShaderStage(drv: Driver, stage: Flags, entryPoint: string, code: Option<seq<byte>>, moduleOk: bool)
      returns (outcome: Outcome<()>)
      requires drv.Valid() && Valid()
      modifies drv, this`modules, this`stageInfos
      ensures drv.Valid() && Valid()
      ensures code.None? ==> outcome == Returned(()) && drv.st == old(drv.st) && modules == old(modules) && stageInfos == old(stageInfos)
      // the device is locked without a check once the file was read
      ensures code.Some? && !(device != null && device.alive) ==>
                outcome == Aborted(NullDereference) && drv.st == old(drv.st) && modules == old(modules) && stageInfos == old(stageInfos)
      ensures code.Some? && device != null && device.alive ==>
                var shaderModule := if moduleOk then old(drv.st.nextHandle) else NULL_HANDLE;
                && outcome == Returned(())
                && modules == old(modules) + [shaderModule]
                && stageInfos == old(stageInfos) + [ShaderStageInfo(stage, shaderModule, entryPoint)]
                && (moduleOk ==> shaderModule in drv.st.created && drv.st.created[shaderModule] == ShaderModuleInfo(code.value))
                && Extends(old(drv.st), drv.st)
    {
      if code.None? {
        return Returned(());
      }
      if !(device != null && device.alive) {
        return Aborted(NullDereference);
      }
      outcome := Returned(());
      var shaderModule := drv.Create(ShaderModuleInfo(code.value), moduleOk);
      modules := modules + [shaderModule];
      stageInfos := stageInfos + [ShaderStageInfo(stage, modules[|modules| - 1], entryPoint)];
    }

    /** addVertexShaderStage: the stage reads the ".vert.spv" file. */
    method AddVertexShaderStage(drv: Driver, entryPoint: string, code: Option<seq<byte>>, moduleOk: bool)
      returns (outcome: Outcome<()>)
      requires drv.Valid() && Valid()
      modifies drv, this`modules, this`stageInfos
      ensures drv.Valid() && Valid()
      ensures code.None? ==> outcome == Returned(()) && drv.st == old(drv.st) && modules == old(modules) && stageInfos == old(stageInfos)
      // the device is locked without a check once the file was read
      ensures code.Some? && !(device != null && device.alive) ==>
                outcome == Aborted(NullDereference) && drv.st == old(drv.st) && modules == old(modules) && stageInfos == old(stageInfos)
      ensures code.Some? && device != null && device.alive ==>
                var shaderModule := if moduleOk then old(drv.st.nextHandle) else NULL_HANDLE;
                && outcome == Returned(())
                && modules == old(modules) + [shaderModule]
                && stageInfos == old(stageInfos) + [ShaderStageInfo(SHADER_STAGE_VERTEX, shaderModule, entryPoint)]
                && (moduleOk ==> shaderModule in drv.st.created && drv.st.created[shaderModule] == ShaderModuleInfo(code.value))
                && Extends(old(drv.st), drv.st)
    {
      outcome := AddShaderStage(drv, SHADER_STAGE_VERTEX, entryPoint, code, moduleOk);
    }

    /** addFragmentShaderStage: the stage reads the ".frag.spv" file. */
    method AddFragmentShaderStage(drv: Driver, entryPoint: string, code: Option<seq<byte>>, moduleOk: bool)
      returns (outcome: Outcome<()>)
      requires drv.Valid() && Valid()
      modifies drv, this`modules, this`stageInfos
      ensures drv.Valid() && Valid()
      ensures code.None? ==> outcome == Returned(()) && drv.st == old(drv.st) && modules == old(modules) && stageInfos == old(stageInfos)
      // the device is locked without a check once the file was read
      ensures code.Some? && !(device != null && device.alive) ==>
                outcome == Aborted(NullDereference) && drv.st == old(drv.st) && modules == old(modules) && stageInfos == old(stageInfos)
      ensures code.Some? && device != null && device.alive ==>
                var shaderModule := if moduleOk then old(drv.st.nextHandle) else NULL_HANDLE;
                && outcome == Returned(())
                && modules == old(modules) + [shaderModule]
                && stageInfos == old(stageInfos) + [ShaderStageInfo(SHADER_STAGE_FRAGMENT, shaderModule, entryPoint)]
                && (moduleOk ==> shaderModule in drv.st.created && drv.st.created[shaderModule] == ShaderModuleInfo(code.value))
                && Extends(old(drv.st), drv.st)
    {
      outcome := AddShaderStage(drv, SHADER_STAGE_FRAGMENT, entryPoint, code, moduleOk);
    }

    method AddDynamicState(state: nat)
      modifies this`dynamicStates
      ensures dynamicStates == old(dynamicStates) + [state]
    {
      dynamicStates := dynamicStates + [state];
    }

    method SetDrawTopology(topology: nat, primitiveRestartEnable: bool)
      modifies this`fixed
      ensures fixed == old(fixed).(topology := topology, primitiveRestartEnable := primitiveRestartEnable)
    {
      fixed := fixed.(topology := topology, primitiveRestartEnable := primitiveRestartEnable);
    }

    /** The remaining fixed-function setters, all at once. */
    method SetFixedFunction(state: FixedFunctionState)
      modifies this`fixed
      ensures fixed == state.(topology := old(fixed).topology, primitiveRestartEnable := old(fixed).primitiveRestartEnable)
    {
      fixed := state.(topology := fixed.topology, primitiveRestartEnable := fixed.primitiveRestartEnable);
    }

    /**
     * The extent goes to the builder and then to the product; after a build
     * has handed the product over, the product write dereferences null.
     */
    method SetExtent(extent: Extent2D) returns (outcome: Outcome<()>)
      modifies this`extent, product
      ensures product != null ==> unchanged(product`device, product`descriptorSetLayout, product`pipelineLayout, product`handle)
      ensures this.extent == extent
      ensures product == null ==> outcome == Aborted(NullDereference)   // m_product is dereferenced
      ensures product != null ==> outcome == Returned(()) && product.extent == extent
    {
      this.extent := extent;
      if product == null {
        return Aborted(NullDereference);
      }
      product.extent := extent;
      outcome := Returned(());
    }

    /** The device goes to the builder and then to the product, as SetExtent. */
    method SetDevice(device: Device?) returns (outcome: Outcome<()>)
      modifies this`device, product
      ensures product != null ==> unchanged(product`descriptorSetLayout, product`pipelineLayout, product`handle, product`extent)
      ensures this.device == device
      ensures product == null ==> outcome == Aborted(NullDereference)   // m_product is dereferenced
      ensures product != null ==> outcome == Returned(()) && product.device == device
    {
      this.device := device;
      if product == null {
        return Aborted(NullDereference);
      }
      product.device := device;
      outcome := Returned(());
    }

    method SetRenderPass(renderPass: RenderPass?)
      modifies this`renderPass
      ensures this.renderPass == renderPass
    {
      this.renderPass := renderPass;
    }

    /**
     * build(). `layoutBindings` are those of the MVP-and-texture uniform
     * descriptor; `layoutOk`, `pipelineLayoutOk` and `pipelineOk` are the
     * results of the three creation calls. A failure returns null and leaves
     * what was created so far, shader modules included, alive.
     */
    method Build(drv: Driver, layoutBindings: seq<DescriptorSetLayoutBinding>,
                 layoutOk: bool, pipelineLayoutOk: bool, pipelineOk: bool)
      returns (outcome: Outcome<Pipeline?>)
      requires drv.Valid() && Valid()
      requires device != null && device.alive && renderPass != null   // the two asserts
      modifies drv, this`product, product
      ensures drv.Valid() && Valid()
      ensures old(product) == null ==> outcome == Aborted(NullDereference) && drv.st == old(drv.st)
      ensures old(product) != null && !(layoutOk && pipelineLayoutOk && pipelineOk) ==>
                && outcome == Returned(null) && product == old(product)
                && drv.st.released == old(drv.st.released)
                && drv.st.live == old(drv.st.live)
                     + (if layoutOk then {old(drv.st.nextHandle)} else {})
                     + (if layoutOk && pipelineLayoutOk then {old(drv.st.nextHandle) + 1} else {})
      ensures old(product) != null && layoutOk && pipelineLayoutOk && pipelineOk ==>
                var layout := old(drv.st.nextHandle);
                && outcome == Returned(old(product)) && product == null
                && old(product).descriptorSetLayout == layout
                && old(product).pipelineLayout == layout + 1
                && old(product).handle == layout + 2
                && drv.st == old(drv.st).(
                     nextHandle := layout + 3,
                     live := old(drv.st.live) + {layout, layout + 1, layout + 2} - (set m | m in modules),
                     created := old(drv.st.created)[layout := DescriptorSetLayoutInfo(layoutBindings)]
                                  [layout + 1 := PipelineLayoutInfo([layout], |pushConstantRanges|)]
                                  [layout + 2 := GraphicsPipelineInfo(PipelineCreateInfo(stageInfos, fixed, dynamicStates,
                                                                                         layout + 1, renderPass.handle))],
                     released := old(drv.st.released) + modules)
    {
      if product == null {
        return Aborted(NullDereference);
      }
      var pipeline := product;
      var layout, pipelineLayout, handle := CreatePipelineObjects(drv, layoutBindings, |pushConstantRanges|,
        stageInfos, fixed, dynamicStates, renderPass.handle, layoutOk, pipelineLayoutOk, pipelineOk);
      pipeline.descriptorSetLayout, pipeline.pipelineLayout, pipeline.handle := layout, pipelineLayout, handle;
      if !(layoutOk && pipelineLayoutOk && pipelineOk) {
        return Returned(null);
      }
      product := null;
      drv.ReleaseInOrder(modules);
      outcome := Returned(pipeline);
    }
  }

  /**
   * The three fallible creations of PipelineBuilder::build, in order: the
   * descriptor-set layout, the pipeline layout over it and the graphics
   * pipeline over that; the first failure stops the sequence and keeps
   * what was already created.
   */
  method CreatePipelineObjects(drv: Driver, layoutBindings: seq<DescriptorSetLayoutBinding>, pushConstantRangeCount: nat,
                               stageInfos: seq<ShaderStageInfo>, fixed: FixedFunctionState, dynamicStates: seq<nat>,
                               renderPass: Handle, layoutOk: bool, pipelineLayoutOk: bool, pipelineOk: bool)
    returns (layout: Handle, pipelineLayout: Handle, pipeline: Handle)
    requires drv.Valid()
    modifies drv
    ensures drv.Valid()
    ensures drv.st.released == old(drv.st.released)
    ensures !(layoutOk && pipelineLayoutOk && pipelineOk) ==>
              drv.st.live == old(drv.st.live)
                + (if layoutOk then {old(drv.st.nextHandle)} else {})
                + (if layoutOk && pipelineLayoutOk then {old(drv.st.nextHandle) + 1} else {})
    ensures layoutOk && pipelineLayoutOk && pipelineOk ==>
              var first := old(drv.st.nextHandle);
              && layout == first && pipelineLayout == first + 1 && pipeline == first + 2
              && drv.st == old(drv.st).(
                   nextHandle := first + 3,
                   live := old(drv.st.live) + {first, first + 1, first + 2},
                   created := old(drv.st.created)[first := DescriptorSetLayoutInfo(layoutBindings)]
                                [first + 1 := PipelineLayoutInfo([first], pushConstantRangeCount)]
                                [first + 2 := GraphicsPipelineInfo(PipelineCreateInfo(stageInfos, fixed, dynamicStates,
                                                                                      first + 1, renderPass))])
  {
    layout := drv.Create(DescriptorSetLayoutInfo(layoutBindings), layoutOk);
    pipelineLayout, pipeline := NULL_HANDLE, NULL_HANDLE;
    if !layoutOk {
      return;
    }
    pipelineLayout := drv.Create(PipelineLayoutInfo([layout], pushConstantRangeCount), pipelineLayoutOk);
    if !pipelineLayoutOk {
      return;
    }
    pipeline := drv.Create(GraphicsPipelineInfo(PipelineCreateInfo(stageInfos, fixed, dynamicStates, pipelineLayout, renderPass)), pipelineOk);
  }

  /** The fixed-function state the director sets (the floating-point settings aside). */
  const DIRECTOR_FIXED_FUNCTION: FixedFunctionState := FixedFunctionState(
    topology := PRIMITIVE_TOPOLOGY_TRIANGLE_LIST,
    primitiveRestartEnable := false,
    depthClampEnable := false,
    rasterizerDiscardEnable := false,
    polygonMode := POLYGON_MODE_FILL,
    cullMode := CULL_MODE_BACK,
    frontFace := FRONT_FACE_COUNTER_CLOCKWISE,
    depthBiasEnable := false,
    rasterizationSamples := SAMPLE_COUNT_1,
    sampleShadingEnable := false,
    alphaToCoverageEnable := false,
    alphaToOneEnable := false,
    depthTestEnable := true,
    depthWriteEnable := true,
    depthCompareOp := COMPARE_OP_LESS,
    depthBoundsTestEnable := false,
    stencilTestEnable := false,
    blendEnable := true,
    srcColorBlendFactor := BLEND_FACTOR_SRC_ALPHA,
    dstColorBlendFactor := BLEND_FACTOR_ONE_MINUS_SRC_ALPHA,
    colorBlendOp := BLEND_OP_ADD,
    srcAlphaBlendFactor := BLEND_FACTOR_ONE,
    dstAlphaBlendFactor := BLEND_FACTOR_ZERO,
    alphaBlendOp := BLEND_OP_ADD,
    colorWriteMask := COLOR_COMPONENT_RGBA,
    logicOpEnable := false,
    logicOp := LOGIC_OP_COPY)

  /**
   * PipelineDirector::createColorDepthRasterizerBuilder: viewport and scissor
   * are dynamic, triangles are filled and back faces culled, depth is compared
   * and written with LESS, and colour is alpha-blended.
   */
  method CreateColorDepthRasterizerBuilder(builder: PipelineBuilder)
    modifies builder`dynamicStates, builder`fixed
    ensures builder.dynamicStates == old(builder.dynamicStates) + [DYNAMIC_STATE_VIEWPORT, DYNAMIC_STATE_SCISSOR]
    ensures builder.fixed == DIRECTOR_FIXED_FUNCTION
    // standard "over" alpha blending, and a depth test that keeps the nearer fragment
    ensures var f := builder.fixed;
            && f.topology == PRIMITIVE_TOPOLOGY_TRIANGLE_LIST && !f.primitiveRestartEnable
            && f.cullMode == CULL_MODE_BACK && f.frontFace == FRONT_FACE_COUNTER_CLOCKWISE
            && f.depthTestEnable && f.depthWriteEnable && f.depthCompareOp == COMPARE_OP_LESS
            && f.blendEnable && f.srcColorBlendFactor == BLEND_FACTOR_SRC_ALPHA
            && f.dstColorBlendFactor == BLEND_FACTOR_ONE_MINUS_SRC_ALPHA
  {
    builder.AddDynamicState(DYNAMIC_STATE_VIEWPORT);
    builder.AddDynamicState(DYNAMIC_STATE_SCISSOR);
    builder.SetDrawTopology(PRIMITIVE_TOPOLOGY_TRIANGLE_LIST, false);
    builder.SetFixedFunction(DIRECTOR_FIXED_FUNCTION);
  }
}
