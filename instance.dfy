/** `MatrixInstance`: the per-instance model matrix read by the vertex shader and by the
    instance compute pass (src/render/objects/vertices/instance.rs). */
module Instance {
  import opened Scalars
  import opened Vk

  /** A `cgmath::Vector4<f32>`. */
  datatype Vector4 = Vector4(x: F32, y: F32, z: F32, w: F32)

  /** A `cgmath::Matrix4<f32>`: four columns named x, y, z, w. */
  datatype Matrix4 = Matrix4(x: Vector4, y: Vector4, z: Vector4, w: Vector4)

  /** `MatrixInstance { matrix, _padding: () }`; the unit padding has no bytes. */
  datatype MatrixInstance = MatrixInstance(matrix: Matrix4)

  /** `size_of::<MatrixInstance>()`: sixteen `f32`. */
  const SIZE: nat := 64
  const MATRIX_OFFSET: nat := 0
  /** Byte offsets of the columns x, y, z, w inside `Matrix4<f32>`. */
  const COLUMN_OFFSETS: seq<nat> := [0, 16, 32, 48]

  /** `attribute_size()`. */
  const ATTRIBUTE_SIZE: nat := 4

  /** `MatrixInstance::new`. */
  function New(matrix: Matrix4): MatrixInstance
  {
    MatrixInstance(matrix)
  }

  /** The sixteen components, column by column, as they sit in memory. */
  function Floats(m: MatrixInstance): (r: seq<F32>)
    ensures |r| == 16
  {
    var c := m.matrix;
    [c.x.x, c.x.y, c.x.z, c.x.w, c.y.x, c.y.y, c.y.z, c.y.w,
     c.z.x, c.z.y, c.z.z, c.z.w, c.w.x, c.w.y, c.w.z, c.w.w]
  }

  function FromFloats(fs: seq<F32>): MatrixInstance
    requires |fs| == 16
  {
    MatrixInstance(Matrix4(Vector4(fs[0], fs[1], fs[2], fs[3]), Vector4(fs[4], fs[5], fs[6], fs[7]),
                           Vector4(fs[8], fs[9], fs[10], fs[11]), Vector4(fs[12], fs[13], fs[14], fs[15])))
  }

  /** The `SIZE` bytes of one record. */
  function Encode(m: MatrixInstance): (r: seq<Byte>)
    ensures |r| == SIZE
  {
    EncodeF32s(Floats(m))
  }

  function Decode(bs: seq<Byte>): MatrixInstance
    requires |bs| == SIZE
  {
    FromFloats(DecodeF32s(bs))
  }

  /** The bytes of a slice of records, as `copy_from_nonoverlapping` writes them. */
  function EncodeAll(data: seq<MatrixInstance>): (r: seq<Byte>)
    ensures |r| == SIZE * |data|
  {
    if data == [] then [] else Encode(data[0]) + EncodeAll(data[1..])
  }

  function DecodeAll(bs: seq<Byte>): (r: seq<MatrixInstance>)
    requires |bs| % SIZE == 0
    ensures SIZE * |r| == |bs|
  {
    if bs == [] then [] else [Decode(bs[..SIZE])] + DecodeAll(bs[SIZE..])
  }

  /** Round trip of one record through its bytes; `new` keeps the matrix as given. */
  lemma EncodeRoundTrip(m: MatrixInstance)
    ensures Decode(Encode(m)) == m
    ensures New(m.matrix) == m
  {
    F32sRoundTrip(Floats(m));
  }

  /** Round trip of a slice of records through its bytes. */
  lemma {:induction false} EncodeAllRoundTrip(data: seq<MatrixInstance>)
    ensures DecodeAll(EncodeAll(data)) == data
  {
    if data != [] {
      var bs := EncodeAll(data);
      assert bs[..SIZE] == Encode(data[0]);
      assert bs[SIZE..] == EncodeAll(data[1..]);
      EncodeRoundTrip(data[0]);
      EncodeAllRoundTrip(data[1..]);
    }
  }

  /** `get_binding_description`: one element per instance. */
  function BindingDescriptionFor(binding: nat): (r: BindingDescription)
    ensures r.binding == binding && r.inputRate == InstanceRate
    ensures r.stride == SIZE == 4 * FormatSize(FORMAT_R32G32B32A32_SFLOAT)
  {
    BindingDescription(binding, SIZE, InstanceRate)
  }

  /** `get_attribute_descriptions`: one four-float attribute per matrix column, at the
      matrix offset plus the column offset. */
  function AttributeDescriptions(start: nat, binding: nat): (r: seq<AttributeDescription>)
    ensures |r| == ATTRIBUTE_SIZE
    ensures WellFormedAttributes(r, start, binding, SIZE)
    ensures forall k :: 0 <= k < |r| ==>
      r[k].format == FORMAT_R32G32B32A32_SFLOAT && r[k].offset == MATRIX_OFFSET + COLUMN_OFFSETS[k]
  {
    [ AttributeDescription(start, binding, FORMAT_R32G32B32A32_SFLOAT, MATRIX_OFFSET + COLUMN_OFFSETS[0]),
      AttributeDescription(start + 1, binding, FORMAT_R32G32B32A32_SFLOAT, MATRIX_OFFSET + COLUMN_OFFSETS[1]),
      AttributeDescription(start + 2, binding, FORMAT_R32G32B32A32_SFLOAT, MATRIX_OFFSET + COLUMN_OFFSETS[2]),
      AttributeDescription(start + 3, binding, FORMAT_R32G32B32A32_SFLOAT, MATRIX_OFFSET + COLUMN_OFFSETS[3]) ]
  }
}
