/**
 * UniformDescriptor and its builder: two lists, the descriptor-set layout
 * bindings and the descriptor writes, each appended to in call order.
 */
module Uniforms {
  import opened Vulkan

  class UniformDescriptor {
    var setLayoutBindings: seq<DescriptorSetLayoutBinding>
    var setWrites: seq<WriteDescriptorSet>

    constructor ()
      ensures setLayoutBindings == [] && setWrites == []
    {
      setLayoutBindings := [];
      setWrites := [];
    }
  }

  class UniformDescriptorBuilder {
    var product: UniformDescriptor

    /** A new builder holds an empty product. */
    constructor ()
      ensures fresh(product) && product.setLayoutBindings == [] && product.setWrites == []
    {
      product := new UniformDescriptor();
    }

    /** A fresh, empty product. */
    method Restart()
      modifies this
      ensures fresh(product) && product.setLayoutBindings == [] && product.setWrites == []
    {
      product := new UniformDescriptor();
    }

    /** One more binding, after those already added; the writes are untouched. */
    method AddSetLayoutBinding(binding: DescriptorSetLayoutBinding)
      modifies product
      ensures product.setLayoutBindings == old(product.setLayoutBindings) + [binding]
      ensures product.setWrites == old(product.setWrites)
    {
      product.setLayoutBindings := product.setLayoutBindings + [binding];
    }

    /** One more write, after those already added; the bindings are untouched. */
    method AddSetWrites(write: WriteDescriptorSet)
      modifies product
      ensures product.setWrites == old(product.setWrites) + [write]
      ensures product.setLayoutBindings == old(product.setLayoutBindings)
    {
      product.setWrites := product.setWrites + [write];
    }

    /**
     * Hands over the product with everything added since the last build and
     * starts again from a fresh, empty one.
     */
    method Build() returns (result: UniformDescriptor)
      modifies this
      ensures result == old(product) && result != product
      ensures result.setLayoutBindings == old(product.setLayoutBindings) && result.setWrites == old(product.setWrites)
      ensures fresh(product) && product.setLayoutBindings == [] && product.setWrites == []
    {
      result := product;
      Restart();
    }
  }
}
