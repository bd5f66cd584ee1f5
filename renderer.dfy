/**
 * The renderer's state as its builder leaves it: the device and swapchain
 * it renders with, the buffering type, the render pass it owns, the render
 * states registered with it, and the back buffers it cycles through. The
 * frame loop and the renderer's build step are not part of this model.
 */
module Renderers {
  import opened Vulkan
  import opened Devices
  import opened SwapChains
  import opened RenderPasses
  import opened RenderStates

  const INT32_LIMIT: int := 0x8000_0000

  /** One frame's worth of submission objects: a command buffer, two semaphores and a fence. */
  datatype BackBuffer = BackBuffer(
    commandBuffer: Handle,
    acquireSemaphore: Handle,
    renderSemaphore: Handle,
    inFlightFence: Handle)

  /**
   * A uint32_t stored into an int: the one 32-bit signed value congruent
   * to it modulo 2^32 (values up to INT32_MAX are kept as they are).
   */
  function SignedOf(u: nat): (r: int)
    requires u < UINT32_LIMIT
    ensures -INT32_LIMIT <= r < INT32_LIMIT
    ensures (u - r) % UINT32_LIMIT == 0
    ensures u < INT32_LIMIT <==> r == u
  {
    if u < INT32_LIMIT then u else u - UINT32_LIMIT
  }

  class Renderer {
    var device: Device?
    var swapchain: SwapChain?
    var bufferingType: int
    var renderPass: RenderPass?
    var renderStates: seq<MeshRenderState>
    var backBufferIndex: int
    var backBuffers: seq<BackBuffer>

    /** The default-constructed renderer: double buffering, at back buffer 0. */
    constructor ()
      ensures bufferingType == 2 && backBufferIndex == 0
      ensures device == null && swapchain == null && renderPass == null
      ensures renderStates == [] && backBuffers == []
    {
      device := null;
      swapchain := null;
      bufferingType := 2;
      renderPass := null;
      renderStates := [];
      backBufferIndex := 0;
      backBuffers := [];
    }

    /** getRenderPass: the render pass this renderer owns, not a copy of it. */
    function GetRenderPass(): (rp: RenderPass?)
      reads this
      ensures rp == renderPass
    {
      renderPass
    }
  }

  class RendererBuilder {
    var product: Renderer?
    var device: Device?
    var swapchain: SwapChain?

    /** A new builder starts with a fresh product. */
    constructor ()
      ensures product != null && fresh(product)
      ensures product.bufferingType == 2 && product.backBufferIndex == 0
      ensures product.device == null && product.swapchain == null && product.renderPass == null
      ensures product.renderStates == [] && product.backBuffers == []
      ensures device == null && swapchain == null
    {
      product := new Renderer();
      device := null;
      swapchain := null;
    }

    /** A fresh product with buffering type 2; the builder's own device and swapchain stay. */
    method Restart()
      modifies this`product
      ensures product != null && fresh(product)
      ensures product.bufferingType == 2 && product.backBufferIndex == 0
      ensures product.device == null && product.swapchain == null && product.renderPass == null
      ensures product.renderStates == [] && product.backBuffers == []
    {
      product := new Renderer();
      product.bufferingType := 2;
    }

    /**
     * The device goes to the builder and then to the product; without a
     * product the write dereferences null.
     */
    method SetDevice(device: Device?) returns (outcome: Outcome<()>)
      modifies this`device, product
      ensures product != null ==> unchanged(product`swapchain, product`bufferingType, product`renderPass, product`renderStates, product`backBufferIndex, product`backBuffers)
      ensures this.device == device
      ensures product == null ==> outcome == Aborted(NullDereference)   // m_product is dereferenced
      ensures product != null ==> outcome == Returned(()) && product.device == device
    {
      this.device := device;
      if product == null {
        return Aborted(NullDereference);
      }
      product.device := device;
      outcome := Returned(());
    }

    /** The swapchain goes to the builder and then to the product, as SetDevice. */
    method SetSwapChain(swapchain: SwapChain?) returns (outcome: Outcome<()>)
      modifies this`swapchain, product
      ensures product != null ==> unchanged(product`device, product`bufferingType, product`renderPass, product`renderStates, product`backBufferIndex, product`backBuffers)
      ensures this.swapchain == swapchain
      ensures product == null ==> outcome == Aborted(NullDereference)   // m_product is dereferenced
      ensures product != null ==> outcome == Returned(()) && product.swapchain == swapchain
    {
      this.swapchain := swapchain;
      if product == null {
        return Aborted(NullDereference);
      }
      product.swapchain := swapchain;
      outcome := Returned(());
    }

    /**
     * The buffering type goes to the product only; the uint32_t argument
     * lands in the product's int field.
     */
    method SetBufferingType(bufferingType: nat) returns (outcome: Outcome<()>)
      requires bufferingType < UINT32_LIMIT
      modifies product
      ensures product != null ==> unchanged(product`device, product`swapchain, product`renderPass, product`renderStates, product`backBufferIndex, product`backBuffers)
      ensures product == null ==> outcome == Aborted(NullDereference)   // m_product is dereferenced
      ensures product != null ==> outcome == Returned(()) && product.bufferingType == SignedOf(bufferingType)
      ensures product != null && bufferingType < INT32_LIMIT ==> product.bufferingType == bufferingType
    {
      if product == null {
        return Aborted(NullDereference);
      }
      product.bufferingType := SignedOf(bufferingType);
      outcome := Returned(());
    }
  }
}
