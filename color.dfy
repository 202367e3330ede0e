/** `ColorVertex`: a position and a color, three `f32` each
    (src/render/objects/vertices/color.rs). */
module Color {
  import opened Scalars
  import opened Vk

  datatype Vec3 = Vec3(x: F32, y: F32, z: F32)

  datatype ColorVertex = ColorVertex(pos: Vec3, color: Vec3)

  /** `#[repr(C)]` field sizes: `pos: [f32; 3]`, `color: [f32; 3]`. */
  const FIELD_SIZES: seq<nat> := [12, 12]

  /** `size_of::<ColorVertex>()`. */
  const STRIDE: nat := 24
  const POS_OFFSET: nat := 0
  const COLOR_OFFSET: nat := 12

  /** `attribute_size()`. */
  const ATTRIBUTE_SIZE: nat := 2

  /** `get_binding_description`: one element per vertex. */
  function BindingDescriptionFor(binding: nat): (r: BindingDescription)
    ensures r.binding == binding && r.inputRate == VertexRate
    ensures r.stride == ReprCSize(FIELD_SIZES)
  {
    BindingDescription(binding, STRIDE, VertexRate)
  }

  /** `get_attribute_descriptions`: position then color, both three floats, at the
      `repr(C)` offsets of the two fields. */
  function AttributeDescriptions(start: nat, binding: nat): (r: seq<AttributeDescription>)
    ensures |r| == ATTRIBUTE_SIZE
    ensures WellFormedAttributes(r, start, binding, STRIDE)
    ensures forall k :: 0 <= k < |r| ==> r[k].format == FORMAT_R32G32B32_SFLOAT
    ensures [r[0].offset, r[1].offset] == ReprCOffsets(FIELD_SIZES, 0)
    ensures forall k :: 0 <= k < |r| ==> FormatSize(r[k].format) == FIELD_SIZES[k]
  {
    [ AttributeDescription(start, binding, FORMAT_R32G32B32_SFLOAT, POS_OFFSET),
      AttributeDescription(start + 1, binding, FORMAT_R32G32B32_SFLOAT, COLOR_OFFSET) ]
  }
}
