/** `SquareInstance`: position and size of one square of the 2D scene, padded to 16 bytes
    (src/render/objects/square_instance.rs). */
module SquareInstance {
  import opened Scalars
  import opened Vk

  datatype Vec2 = Vec2(x: F32, y: F32)

  /** `SquareInstance { pos: [f32; 2], size: f32, _padding: f32 }`. */
  datatype SquareInstance = SquareInstance(pos: Vec2, size: F32, padding: F32)

  /** `#[repr(C)]` field sizes. */
  const FIELD_SIZES: seq<nat> := [8, 4, 4]

  /** `size_of::<SquareInstance>()`. */
  const STRIDE: nat := 16
  const POS_OFFSET: nat := 0
  const SIZE_OFFSET: nat := 8

  /** `SquareInstance::new`: the padding is `0.0`. */
  function New(pos: Vec2, size: F32): (r: SquareInstance)
    ensures r.pos == pos && r.size == size && r.padding == F32_ZERO
  {
    SquareInstance(pos, size, F32_ZERO)
  }

  /** `get_binding_description`: one element per instance. */
  function BindingDescriptionFor(binding: nat): (r: BindingDescription)
    ensures r.binding == binding && r.inputRate == InstanceRate
    ensures r.stride == ReprCSize(FIELD_SIZES)
  {
    BindingDescription(binding, STRIDE, InstanceRate)
  }

  /** `get_attribute_descriptions`: the two-float position and the one-float size, both on
      the given binding, at their `repr(C)` offsets; the padding is not an attribute. */
  function AttributeDescriptions(start: nat, binding: nat): (r: seq<AttributeDescription>)
    ensures |r| == 2
    ensures WellFormedAttributes(r, start, binding, STRIDE)
    ensures r[0].format == FORMAT_R32G32_SFLOAT && r[1].format == FORMAT_R32_SFLOAT
    ensures [r[0].offset, r[1].offset] == ReprCOffsets(FIELD_SIZES, 0)[..2]
    ensures r[1].offset + FormatSize(r[1].format) + FIELD_SIZES[2] == STRIDE
  {
    [ AttributeDescription(start, binding, FORMAT_R32G32_SFLOAT, POS_OFFSET),
      AttributeDescription(start + 1, binding, FORMAT_R32_SFLOAT, SIZE_OFFSET) ]
  }
}
