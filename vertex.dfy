/** The older per-type descriptions of `ColorVertex` and `TexVertex`
    (src/render/objects/vertex.rs), still exported by the objects module next to the
    `Vertex` implementations in the vertices module. */
module LegacyVertex {
  import opened Vk
  import Color
  import Tex

  function ColorBindingDescription(binding: nat): BindingDescription
  {
    BindingDescription(binding, Color.STRIDE, VertexRate)
  }

  function ColorAttributeDescriptions(start: nat, binding: nat): seq<AttributeDescription>
  {
    [ AttributeDescription(start, binding, FORMAT_R32G32B32_SFLOAT, Color.POS_OFFSET),
      AttributeDescription(start + 1, binding, FORMAT_R32G32B32_SFLOAT, Color.COLOR_OFFSET) ]
  }

  function TexBindingDescription(binding: nat): BindingDescription
  {
    BindingDescription(binding, Tex.STRIDE, VertexRate)
  }

  function TexAttributeDescriptions(start: nat, binding: nat): seq<AttributeDescription>
  {
    [ AttributeDescription(start, binding, FORMAT_R32G32B32_SFLOAT, Tex.POS_OFFSET),
      AttributeDescription(start + 1, binding, FORMAT_R32G32B32_SFLOAT, Tex.NORMAL_OFFSET),
      AttributeDescription(start + 2, binding, FORMAT_R32G32_SFLOAT, Tex.TEX_OFFSET) ]
  }

  /** The older descriptions are the same as those of the `Vertex` implementations, for
      every binding and start location, so they share their layout properties. */
  lemma LegacyDescriptionsAgree(start: nat, binding: nat)
    ensures ColorBindingDescription(binding) == Color.BindingDescriptionFor(binding)
    ensures ColorAttributeDescriptions(start, binding) == Color.AttributeDescriptions(start, binding)
    ensures TexBindingDescription(binding) == Tex.BindingDescriptionFor(binding)
    ensures TexAttributeDescriptions(start, binding) == Tex.AttributeDescriptions(start, binding)
    ensures WellFormedAttributes(ColorAttributeDescriptions(start, binding), start, binding, Color.STRIDE)
    ensures WellFormedAttributes(TexAttributeDescriptions(start, binding), start, binding, Tex.STRIDE)
  {
  }
}
