/**
 * The part of the swapchain the render pass reads: one image view per
 * swapchain image, the shared depth view, the extent and the formats.
 * Creating and recreating the swapchain is not part of this model.
 */
module SwapChains {
  import opened Vulkan

  class SwapChain {
    const imageFormat: nat
    const extent: Extent2D
    const imageViews: seq<Handle>
    const depthFormat: nat
    const depthImageView: Handle
    const frameInFlightCount: nat

    constructor (imageFormat: nat, extent: Extent2D, imageViews: seq<Handle>,
                 depthFormat: nat, depthImageView: Handle, frameInFlightCount: nat)
      ensures this.imageFormat == imageFormat && this.extent == extent && this.imageViews == imageViews
      ensures this.depthFormat == depthFormat && this.depthImageView == depthImageView
      ensures this.frameInFlightCount == frameInFlightCount
    {
      this.imageFormat := imageFormat;
      this.extent := extent;
      this.imageViews := imageViews;
      this.depthFormat := depthFormat;
      this.depthImageView := depthImageView;
      this.frameInFlightCount := frameInFlightCount;
    }
  }
}
