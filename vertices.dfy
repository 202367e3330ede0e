/** The `Vertex` interface and the macros that turn a list of vertex types into the
    vertex-input state of a graphics pipeline (src/render/objects/vertices/mod.rs). The
    types listed are numbered 0, 1, ... and type k is bound at binding k. */
module Vertices {
  import opened Vk
  import Color
  import Tex
  import Instance
  import Linear2dVec

  /** The types that implement `Vertex`. */
  datatype VertexType = ColorVertexType | TexVertexType | MatrixInstanceType

  function BindingDescriptionOf(t: VertexType, binding: nat): BindingDescription
  {
    match t
    case ColorVertexType => Color.BindingDescriptionFor(binding)
    case TexVertexType => Tex.BindingDescriptionFor(binding)
    case MatrixInstanceType => Instance.BindingDescriptionFor(binding)
  }

  function AttributeDescriptionsOf(t: VertexType, start: nat, binding: nat): seq<AttributeDescription>
  {
    match t
    case ColorVertexType => Color.AttributeDescriptions(start, binding)
    case TexVertexType => Tex.AttributeDescriptions(start, binding)
    case MatrixInstanceType => Instance.AttributeDescriptions(start, binding)
  }

  function AttributeSizeOf(t: VertexType): nat
  {
    match t
    case ColorVertexType => Color.ATTRIBUTE_SIZE
    case TexVertexType => Tex.ATTRIBUTE_SIZE
    case MatrixInstanceType => Instance.ATTRIBUTE_SIZE
  }

  function StrideOf(t: VertexType): nat
  {
    match t
    case ColorVertexType => Color.STRIDE
    case TexVertexType => Tex.STRIDE
    case MatrixInstanceType => Instance.SIZE
  }

  /** Every type's attribute list has `attribute_size()` entries and is well formed for
      its binding and stride. */
  lemma AttributesOfType(t: VertexType, start: nat, binding: nat)
    ensures |AttributeDescriptionsOf(t, start, binding)| == AttributeSizeOf(t)
    ensures WellFormedAttributes(AttributeDescriptionsOf(t, start, binding), start, binding, StrideOf(t))
    ensures BindingDescriptionOf(t, binding).binding == binding
    ensures BindingDescriptionOf(t, binding).stride == StrideOf(t)
  {
  }

  /** `enumerate_binding_descriptions!`, from step `i` on. */
  function EnumerateBindingDescriptions(types: seq<VertexType>, i: nat): (r: seq<BindingDescription>)
    ensures |r| == |types|
    ensures forall k :: 0 <= k < |types| ==> r[k] == BindingDescriptionOf(types[k], i + k)
  {
    if types == [] then []
    else [BindingDescriptionOf(types[0], i)] + EnumerateBindingDescriptions(types[1..], i + 1)
  }

  /** Where the fold puts one type's attributes: the type, its first location and its
      binding. */
  datatype Placement = Placement(vertexType: VertexType, start: nat, binding: nat)

  /** The attribute descriptions of one placed type. */
  function Describe(p: Placement): seq<AttributeDescription>
  {
    AttributeDescriptionsOf(p.vertexType, p.start, p.binding)
  }

  /** The fold of `enumerate_attribute_descriptions!` as written, from step `i` with start
      location `offset`: after each type the next start location becomes that type's
      `attribute_size()`, not the running sum of the sizes so far. */
  function AsWrittenPlacements(types: seq<VertexType>, i: nat, offset: nat): (r: seq<Placement>)
    ensures |r| == |types|
  {
    if types == [] then []
    else [Placement(types[0], offset, i)] + AsWrittenPlacements(types[1..], i + 1, AttributeSizeOf(types[0]))
  }

  /** The fold as intended: each type's start location is the running sum of the
      attribute sizes of the types before it. */
  function Placements(types: seq<VertexType>, i: nat, offset: nat): (r: seq<Placement>)
    ensures |r| == |types|
  {
    if types == [] then []
    else [Placement(types[0], offset, i)] + Placements(types[1..], i + 1, offset + AttributeSizeOf(types[0]))
  }

  /** `enumerate_attribute_descriptions!` as written: one attribute array per type. */
  function EnumerateAttributeDescriptionsAsWritten(types: seq<VertexType>, i: nat, offset: nat): (r: seq<seq<AttributeDescription>>)
    ensures |r| == |types|
    ensures forall k :: 0 <= k < |types| ==> r[k] == Describe(AsWrittenPlacements(types, i, offset)[k])
  {
    var ps := AsWrittenPlacements(types, i, offset);
    seq(|ps|, k requires 0 <= k < |ps| => Describe(ps[k]))
  }

  /** The sum of the attribute sizes of the listed types. */
  function TotalAttributeSize(types: seq<VertexType>): nat
  {
    if types == [] then 0 else AttributeSizeOf(types[0]) + TotalAttributeSize(types[1..])
  }

  /** `enumerate_attribute_descriptions!` with the running sum. */
  function EnumerateAttributeDescriptions(types: seq<VertexType>, i: nat, offset: nat): (r: seq<seq<AttributeDescription>>)
    ensures |r| == |types|
    ensures forall k :: 0 <= k < |types| ==> r[k] == Describe(Placements(types, i, offset)[k])
  {
    var ps := Placements(types, i, offset);
    seq(|ps|, k requires 0 <= k < |ps| => Describe(ps[k]))
  }

  /** As written, type k (k > 0) starts at the previous type's `attribute_size()` and uses
      binding k. */
  lemma {:induction false} AsWrittenPlacementAt(types: seq<VertexType>, i: nat, offset: nat, k: nat)
    requires k < |types|
    ensures AsWrittenPlacements(types, i, offset)[k]
            == Placement(types[k], if k == 0 then offset else AttributeSizeOf(types[k - 1]), i + k)
  {
    if k > 0 {
      AsWrittenPlacementAt(types[1..], i + 1, AttributeSizeOf(types[0]), k - 1);
    }
  }

  lemma AsWrittenAt(types: seq<VertexType>, i: nat, offset: nat, k: nat)
    requires k < |types|
    ensures EnumerateAttributeDescriptionsAsWritten(types, i, offset)[k]
            == AttributeDescriptionsOf(types[k], if k == 0 then offset else AttributeSizeOf(types[k - 1]), i + k)
  {
    AsWrittenPlacementAt(types, i, offset, k);
  }

  /** With the running sum, type k starts at the total attribute size of the types before
      it and uses binding k. */
  lemma {:induction false} PlacementAt(types: seq<VertexType>, i: nat, offset: nat, k: nat)
    requires k < |types|
    ensures Placements(types, i, offset)[k] == Placement(types[k], offset + TotalAttributeSize(types[..k]), i + k)
  {
    if k == 0 {
      assert types[..0] == [];
    } else {
      PlacementAt(types[1..], i + 1, offset + AttributeSizeOf(types[0]), k - 1);
      assert types[..k][1..] == types[1..][..k - 1];
    }
  }

  lemma EnumerateAt(types: seq<VertexType>, i: nat, offset: nat, k: nat)
    requires k < |types|
    ensures EnumerateAttributeDescriptions(types, i, offset)[k]
            == AttributeDescriptionsOf(types[k], offset + TotalAttributeSize(types[..k]), i + k)
  {
    PlacementAt(types, i, offset, k);
  }

  /** `get_pipeline_vertex_input_state_ci!`: the binding array, the flattened attribute
      array and the two counts of `VkPipelineVertexInputStateCreateInfo`. */
  datatype VertexInputState = VertexInputState(
    bindings: seq<BindingDescription>,
    attributes: seq<AttributeDescription>,
    vertexBindingDescriptionCount: nat,
    vertexAttributeDescriptionCount: nat)

  /** The create info as the macro builds it, with the as-written location fold. */
  function PipelineVertexInputStateAsWritten(types: seq<VertexType>): (r: VertexInputState)
    ensures r.vertexBindingDescriptionCount == |r.bindings| == |types|
    ensures r.vertexAttributeDescriptionCount == |r.attributes|
    ensures r.attributes == Linear2dVec.Concat(EnumerateAttributeDescriptionsAsWritten(types, 0, 0))
  {
    var bindings := EnumerateBindingDescriptions(types, 0);
    var attributes := Linear2dVec.Concat(EnumerateAttributeDescriptionsAsWritten(types, 0, 0));
    VertexInputState(bindings, attributes, |bindings|, |attributes|)
  }

  /** The create info with the corrected (running-sum) location fold. */
  function PipelineVertexInputState(types: seq<VertexType>): (r: VertexInputState)
    ensures r.vertexBindingDescriptionCount == |r.bindings| == |types|
    ensures r.vertexAttributeDescriptionCount == |r.attributes|
    ensures r.attributes == Linear2dVec.Concat(EnumerateAttributeDescriptions(types, 0, 0))
  {
    var bindings := EnumerateBindingDescriptions(types, 0);
    var attributes := Linear2dVec.Concat(EnumerateAttributeDescriptions(types, 0, 0));
    VertexInputState(bindings, attributes, |bindings|, |attributes|)
  }

  // ---------------------------------------------------------------------------
  // Properties

  /** Each placed type's attributes are well formed at its start location and binding. */
  lemma DescribeWellFormed(p: Placement)
    ensures |Describe(p)| == AttributeSizeOf(p.vertexType) > 0
    ensures WellFormedAttributes(Describe(p), p.start, p.binding, StrideOf(p.vertexType))
  {
    AttributesOfType(p.vertexType, p.start, p.binding);
  }

  /** The k-th type gets binding description k, and its attributes use binding k. */
  lemma BindingsInOrder(types: seq<VertexType>, k: nat)
    requires k < |types|
    ensures EnumerateBindingDescriptions(types, 0)[k].binding == k
    ensures forall j :: 0 <= j < |EnumerateAttributeDescriptions(types, 0, 0)[k]| ==>
      EnumerateAttributeDescriptions(types, 0, 0)[k][j].binding == k
    ensures forall j :: 0 <= j < |EnumerateAttributeDescriptionsAsWritten(types, 0, 0)[k]| ==>
      EnumerateAttributeDescriptionsAsWritten(types, 0, 0)[k][j].binding == k
  {
    AttributesOfType(types[k], 0, k);
    PlacementAt(types, 0, 0, k);
    AsWrittenPlacementAt(types, 0, 0, k);
    DescribeWellFormed(Placements(types, 0, 0)[k]);
    DescribeWellFormed(AsWrittenPlacements(types, 0, 0)[k]);
  }

  /** With the running sum, the location ranges of the types follow each other without
      gaps or overlaps: type k starts where type k-1 ends. */
  lemma LocationsContiguous(types: seq<VertexType>, k: nat)
    requires 0 < k < |types|
    ensures |EnumerateAttributeDescriptions(types, 0, 0)[k]| > 0 && |EnumerateAttributeDescriptions(types, 0, 0)[k - 1]| > 0
    ensures var a := EnumerateAttributeDescriptions(types, 0, 0);
            a[k][0].location == a[k - 1][0].location + AttributeSizeOf(types[k - 1])
  {
    PlacementAt(types, 0, 0, k);
    PlacementAt(types, 0, 0, k - 1);
    DescribeWellFormed(Placements(types, 0, 0)[k]);
    DescribeWellFormed(Placements(types, 0, 0)[k - 1]);
    var pre := types[..k];
    assert pre[..k - 1] == types[..k - 1];
    TotalAttributeSizeSnoc(pre);
  }

  lemma {:induction false} TotalAttributeSizeSnoc(types: seq<VertexType>)
    requires types != []
    ensures TotalAttributeSize(types) == TotalAttributeSize(types[..|types| - 1]) + AttributeSizeOf(types[|types| - 1])
  {
    if |types| > 1 {
      assert types[1..][..|types| - 2] == types[..|types| - 1][1..];
      TotalAttributeSizeSnoc(types[1..]);
    }
  }

  /** For at most two types the macro as written agrees with the running sum; both
      pipelines of the renderer list exactly two. */
  lemma AsWrittenAgreesUpToTwo(types: seq<VertexType>)
    requires |types| <= 2
    ensures EnumerateAttributeDescriptionsAsWritten(types, 0, 0) == EnumerateAttributeDescriptions(types, 0, 0)
  {
    var w := AsWrittenPlacements(types, 0, 0);
    var c := Placements(types, 0, 0);
    forall k | 0 <= k < |types|
      ensures w[k] == c[k]
    {
      AsWrittenPlacementAt(types, 0, 0, k);
      PlacementAt(types, 0, 0, k);
      if k == 1 {
        assert types[..1] == [types[0]];
        assert [types[0]][1..] == [];
      } else {
        assert types[..0] == [];
      }
    }
    assert w == c;
  }

  /** Hence for at most two types the create info the macro builds is the corrected one. */
  lemma AsWrittenPipelineAgreesUpToTwo(types: seq<VertexType>)
    requires |types| <= 2
    ensures PipelineVertexInputStateAsWritten(types) == PipelineVertexInputState(types)
  {
    AsWrittenAgreesUpToTwo(types);
  }

  /** The two pipelines, as the macro builds them: `ColorVertex, MatrixInstance` puts
      locations 0-1 on binding 0 and 2-5 on binding 1; `TexVertex, MatrixInstance` puts 0-2
      on binding 0 and 3-6 on binding 1. */
  lemma GraphicsPipelineLayouts()
    ensures var s := PipelineVertexInputStateAsWritten([ColorVertexType, MatrixInstanceType]);
            && |s.attributes| == 6
            && (forall k :: 0 <= k < 6 ==> s.attributes[k].location == k)
            && (forall k :: 0 <= k < 6 ==> s.attributes[k].binding == if k < 2 then 0 else 1)
            && s.bindings == [Color.BindingDescriptionFor(0), Instance.BindingDescriptionFor(1)]
    ensures var s := PipelineVertexInputStateAsWritten([TexVertexType, MatrixInstanceType]);
            && |s.attributes| == 7
            && (forall k :: 0 <= k < 7 ==> s.attributes[k].location == k)
            && (forall k :: 0 <= k < 7 ==> s.attributes[k].binding == if k < 3 then 0 else 1)
            && s.bindings == [Tex.BindingDescriptionFor(0), Instance.BindingDescriptionFor(1)]
  {
    AsWrittenPipelineAgreesUpToTwo([ColorVertexType, MatrixInstanceType]);
    AsWrittenPipelineAgreesUpToTwo([TexVertexType, MatrixInstanceType]);
    PipelineOfTwo(ColorVertexType, MatrixInstanceType);
    PipelineOfTwo(TexVertexType, MatrixInstanceType);
  }

  lemma PipelineOfTwo(t0: VertexType, t1: VertexType)
    ensures var s := PipelineVertexInputState([t0, t1]);
            && s.attributes == AttributeDescriptionsOf(t0, 0, 0) + AttributeDescriptionsOf(t1, AttributeSizeOf(t0), 1)
            && s.bindings == [BindingDescriptionOf(t0, 0), BindingDescriptionOf(t1, 1)]
  {
    TwoPlacements(t0, t1);
    var c := EnumerateAttributeDescriptions([t0, t1], 0, 0);
    var a0, a1 := AttributeDescriptionsOf(t0, 0, 0), AttributeDescriptionsOf(t1, AttributeSizeOf(t0), 1);
    assert c == [a0, a1];
    ConcatTwo(a0, a1);
  }

  /** The running-sum fold over two types. */
  lemma TwoPlacements(t0: VertexType, t1: VertexType)
    ensures Placements([t0, t1], 0, 0) == [Placement(t0, 0, 0), Placement(t1, AttributeSizeOf(t0), 1)]
  {
    assert [t0, t1][1..] == [t1];
    assert [t1][1..] == [];
  }

  lemma ConcatTwo<T>(a: seq<T>, b: seq<T>)
    ensures Linear2dVec.Concat([a, b]) == a + b
  {
    assert [a, b][..1] == [a];
    assert [a][..0] == [];
    assert Linear2dVec.Concat([a]) == a;
  }

  /** With three types the macro as written gives two attributes the same location:
      `ColorVertex, TexVertex, MatrixInstance` starts the matrix at location 3 (the tex
      vertex's size), which the tex vertex already uses. */
  lemma AsWrittenOverlapsWithThreeTypes()
    ensures var a := EnumerateAttributeDescriptionsAsWritten([ColorVertexType, TexVertexType, MatrixInstanceType], 0, 0);
            a[1][1].location == a[2][0].location == 3
    ensures var a := EnumerateAttributeDescriptions([ColorVertexType, TexVertexType, MatrixInstanceType], 0, 0);
            a[1][2].location == 4 && a[2][0].location == 5
  {
    var types := [ColorVertexType, TexVertexType, MatrixInstanceType];
    AsWrittenPlacementAt(types, 0, 0, 1);
    AsWrittenPlacementAt(types, 0, 0, 2);
    PlacementAt(types, 0, 0, 1);
    PlacementAt(types, 0, 0, 2);
    assert types[..1] == [ColorVertexType];
    assert types[..2] == [ColorVertexType, TexVertexType];
    assert TotalAttributeSize([ColorVertexType]) == 2 by {
      assert [ColorVertexType][1..] == [];
    }
    assert TotalAttributeSize([ColorVertexType, TexVertexType]) == 5 by {
      assert [ColorVertexType, TexVertexType][1..] == [TexVertexType];
      assert [TexVertexType][1..] == [];
    }
    DescribeWellFormed(AsWrittenPlacements(types, 0, 0)[1]);
    DescribeWellFormed(AsWrittenPlacements(types, 0, 0)[2]);
    DescribeWellFormed(Placements(types, 0, 0)[1]);
    DescribeWellFormed(Placements(types, 0, 0)[2]);
  }
}
