/** `TexVertex`: position, normal and texture coordinates
    (src/render/objects/vertices/tex.rs). */
module Tex {
  import opened Scalars
  import opened Vk

  datatype Vec2 = Vec2(x: F32, y: F32)
  datatype Vec3 = Vec3(x: F32, y: F32, z: F32)

  datatype TexVertex = TexVertex(pos: Vec3, normal: Vec3, tex: Vec2)

  /** `#[repr(C)]` field sizes: `pos: [f32; 3]`, `normal: [f32; 3]`, `tex: [f32; 2]`. */
  const FIELD_SIZES: seq<nat> := [12, 12, 8]

  /** `size_of::<TexVertex>()`. */
  const STRIDE: nat := 32
  const POS_OFFSET: nat := 0
  const NORMAL_OFFSET: nat := 12
  const TEX_OFFSET: nat := 24

  /** `attribute_size()`. */
  const ATTRIBUTE_SIZE: nat := 3

  /** `get_binding_description`: one element per vertex. */
  function BindingDescriptionFor(binding: nat): (r: BindingDescription)
    ensures r.binding == binding && r.inputRate == VertexRate
    ensures r.stride == ReprCSize(FIELD_SIZES)
  {
    BindingDescription(binding, STRIDE, VertexRate)
  }

  /** `get_attribute_descriptions`: position and normal as three floats, texture
      coordinates as two, at the `repr(C)` offsets of the fields. */
  function AttributeDescriptions(start: nat, binding: nat): (r: seq<AttributeDescription>)
    ensures |r| == ATTRIBUTE_SIZE
    ensures WellFormedAttributes(r, start, binding, STRIDE)
    ensures r[0].format == FORMAT_R32G32B32_SFLOAT && r[1].format == FORMAT_R32G32B32_SFLOAT
    ensures r[2].format == FORMAT_R32G32_SFLOAT
    ensures [r[0].offset, r[1].offset, r[2].offset] == ReprCOffsets(FIELD_SIZES, 0)
    ensures forall k :: 0 <= k < |r| ==> FormatSize(r[k].format) == FIELD_SIZES[k]
  {
    [ AttributeDescription(start, binding, FORMAT_R32G32B32_SFLOAT, POS_OFFSET),
      AttributeDescription(start + 1, binding, FORMAT_R32G32B32_SFLOAT, NORMAL_OFFSET),
      AttributeDescription(start + 2, binding, FORMAT_R32G32_SFLOAT, TEX_OFFSET) ]
  }
}
