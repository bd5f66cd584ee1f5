/**
 * The vertex layout the pipeline reads: a Vertex is a position (3 floats),
 * a normal (3 floats), a colour (4 floats) and a texture coordinate
 * (2 floats), laid out in that order without padding, and is fed to the
 * vertex shader through one per-vertex binding.
 */
module Vertices {
  import opened Vulkan

  /** 32-bit float components; the model copies them and does no arithmetic on them. */
  datatype Vec2 = Vec2(x: real, y: real)
  datatype Vec3 = Vec3(x: real, y: real, z: real)
  datatype Vec4 = Vec4(x: real, y: real, z: real, w: real)

  datatype Vertex = Vertex(position: Vec3, normal: Vec3, color: Vec4, uv: Vec2)

  /** Byte size of each field of Vertex, in declaration order: vec3, vec3, vec4, vec2 of 32-bit floats. */
  const FIELD_SIZES: seq<nat> := [3 * 4, 3 * 4, 4 * 4, 2 * 4]

  const POSITION: nat := 0
  const NORMAL: nat := 1
  const COLOR: nat := 2
  const UV: nat := 3

  function Sum(s: seq<nat>): nat {
    if |s| == 0 then 0 else Sum(s[..|s| - 1]) + s[|s| - 1]
  }

  /** offsetof(Vertex, field): the sizes of the fields declared before it. */
  function FieldOffset(field: nat): nat
    requires field < |FIELD_SIZES|
  {
    Sum(FIELD_SIZES[..field])
  }

  /** sizeof(Vertex). */
  function VertexSize(): nat {
    Sum(FIELD_SIZES)
  }

  /** The byte size of a vertex attribute format; 0 for formats the layouts do not use. */
  function FormatSize(format: nat): nat {
    if format == FORMAT_R32G32_SFLOAT then 8
    else if format == FORMAT_R32G32B32_SFLOAT then 12
    else if format == FORMAT_R32G32B32A32_SFLOAT then 16
    else 0
  }

  /** The concrete layout: 48 bytes, fields at 0, 12, 24 and 40. */
  lemma ConcreteLayout()
    ensures FieldOffset(POSITION) == 0 && FieldOffset(NORMAL) == 12 && FieldOffset(COLOR) == 24 && FieldOffset(UV) == 40
    ensures VertexSize() == 48
  {
    assert FIELD_SIZES[..0] == [];
    assert FIELD_SIZES[..1][..0] == [];
    assert FIELD_SIZES[..2][..1] == FIELD_SIZES[..1];
    assert FIELD_SIZES[..3][..2] == FIELD_SIZES[..2];
    assert FIELD_SIZES[..4] == FIELD_SIZES;
    assert FIELD_SIZES[..4][..3] == FIELD_SIZES[..3];
  }

  /** A sum over a longer prefix of positive sizes is larger. */
  lemma {:induction false} PrefixSumsIncrease(sizes: seq<nat>, i: nat, j: nat)
    requires forall k :: 0 <= k < |sizes| ==> sizes[k] > 0
    requires i < j <= |sizes|
    ensures Sum(sizes[..i]) < Sum(sizes[..j])
  {
    assert sizes[..j][..j - 1] == sizes[..j - 1];
    if i < j - 1 {
      PrefixSumsIncrease(sizes, i, j - 1);
    }
  }

  /** Field offsets increase in declaration order and stay below the vertex size. */
  lemma FieldOffsetsIncrease(a: nat, b: nat)
    requires a < b < |FIELD_SIZES|
    ensures FieldOffset(a) < FieldOffset(b) < VertexSize()
  {
    PrefixSumsIncrease(FIELD_SIZES, a, b);
    PrefixSumsIncrease(FIELD_SIZES, b, |FIELD_SIZES|);
    assert FIELD_SIZES[..|FIELD_SIZES|] == FIELD_SIZES;
  }

  /** Each field ends where the next one starts, and the last one at the end of the vertex. */
  lemma FieldsTileVertex(field: nat)
    requires field < |FIELD_SIZES|
    ensures FieldOffset(field) + FIELD_SIZES[field] ==
              if field + 1 < |FIELD_SIZES| then FieldOffset(field + 1) else VertexSize()
  {
    assert FIELD_SIZES[..field + 1][..field] == FIELD_SIZES[..field];
    assert FIELD_SIZES[..|FIELD_SIZES|] == FIELD_SIZES;
  }

  /** Vertex::get_vertex_input_binding_description: binding 0, one Vertex per step, per vertex. */
  function BindingDescription(): (binding: VertexInputBinding)
    ensures binding.binding == 0 && binding.stride == VertexSize() && binding.inputRate == VERTEX_INPUT_RATE_VERTEX
  {
    VertexInputBinding(0, VertexSize(), VERTEX_INPUT_RATE_VERTEX)
  }

  /**
   * Vertex::get_vertex_input_attribute_description: one attribute per field,
   * location i for field i, on binding 0, at the field's offset, in a
   * format exactly as wide as the field.
   */
  function AttributeDescriptions(): (attributes: seq<VertexInputAttribute>)
    ensures |attributes| == |FIELD_SIZES|
    ensures forall i :: 0 <= i < |attributes| ==>
              && attributes[i].location == i
              && attributes[i].binding == BindingDescription().binding
              && attributes[i].offset == FieldOffset(i)
              && FormatSize(attributes[i].format) == FIELD_SIZES[i]
  {
    [VertexInputAttribute(0, 0, FORMAT_R32G32B32_SFLOAT, FieldOffset(POSITION)),
     VertexInputAttribute(1, 0, FORMAT_R32G32B32_SFLOAT, FieldOffset(NORMAL)),
     VertexInputAttribute(2, 0, FORMAT_R32G32B32A32_SFLOAT, FieldOffset(COLOR)),
     VertexInputAttribute(3, 0, FORMAT_R32G32_SFLOAT, FieldOffset(UV))]
  }

  /**
   * The attributes read the whole vertex without overlap: attribute i ends
   * where attribute i + 1 begins, and the last one at the stride.
   */
  lemma AttributesTileStride(i: nat)
    requires i < |AttributeDescriptions()|
    ensures var attributes := AttributeDescriptions();
            attributes[i].offset + FormatSize(attributes[i].format) ==
              if i + 1 < |attributes| then attributes[i + 1].offset else BindingDescription().stride
  {
    FieldsTileVertex(i);
  }

  /** VertexDescT::get_vertex_binding_description: the same binding as Vertex's. */
  function DescBindingDescription(): (binding: VertexInputBinding)
    ensures binding == BindingDescription()
  {
    VertexInputBinding(0, VertexSize(), VERTEX_INPUT_RATE_VERTEX)
  }

  /**
   * VertexDescT::get_vertex_attribute_description: two attributes, the
   * position read as two floats at location 0 and the colour at location 1.
   */
  function DescAttributeDescriptions(): (attributes: seq<VertexInputAttribute>)
    ensures |attributes| == 2
    ensures attributes[0].location == 0 && attributes[1].location == 1
    ensures attributes[0].binding == 0 && attributes[1].binding == 0
    ensures attributes[0].offset == FieldOffset(POSITION) && attributes[1].offset == FieldOffset(COLOR)
    ensures attributes[0].format == FORMAT_R32G32_SFLOAT && attributes[1].format == FORMAT_R32G32B32A32_SFLOAT
  {
    [VertexInputAttribute(0, 0, FORMAT_R32G32_SFLOAT, FieldOffset(POSITION)),
     VertexInputAttribute(1, 0, FORMAT_R32G32B32A32_SFLOAT, FieldOffset(COLOR))]
  }

  /**
   * Each of the two attributes reads within the field it names: the
   * position attribute reads the first two of its three floats.
   */
  lemma DescAttributesStayInFields()
    ensures var attributes := DescAttributeDescriptions();
            && FormatSize(attributes[0].format) < FIELD_SIZES[POSITION]
            && attributes[0].offset + FormatSize(attributes[0].format) <= FieldOffset(NORMAL)
            && FormatSize(attributes[1].format) == FIELD_SIZES[COLOR]
            && attributes[1].offset + FormatSize(attributes[1].format) == FieldOffset(UV)
  {
    FieldsTileVertex(POSITION);
    FieldsTileVertex(COLOR);
  }
}
