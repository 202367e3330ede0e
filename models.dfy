/** The model table: the vertex and index data of every model, each flattened into one
    partitioned vector (src/render/models/mod.rs). */
module Models {
  import opened Scalars
  import opened Linear2dVec
  import Color

  const SQUARE_INDEX: nat := 0
  const CUBE_INDEX: nat := 1
  const NIKO_INDEX: nat := 2

  /** `ModelProperties`: where one model's vertices and indices live in the shared
      buffers, after the casts to `u32` and `i32`. */
  datatype ModelProperties = ModelProperties(vertexCount: nat, vertexOffset: int, indexCount: nat, indexOffset: nat)

  /** `Models`. */
  datatype Models = Models(vertices: Linear2dVec<Color.ColorVertex>, indices: Linear2dVec<U16>)

  /** What one model's `load` returns: its vertices and its indices. */
  type ModelData = (seq<Color.ColorVertex>, seq<U16>)

  /** `unzip` of the per-model pairs. */
  function Unzip(data: seq<ModelData>): (r: (seq<seq<Color.ColorVertex>>, seq<seq<U16>>))
    ensures |r.0| == |data| && |r.1| == |data|
    ensures forall i :: 0 <= i < |data| ==> r.0[i] == data[i].0 && r.1[i] == data[i].1
  {
    if data == [] then ([], [])
    else
      var rest := Unzip(data[..|data| - 1]);
      (rest.0 + [data[|data| - 1].0], rest.1 + [data[|data| - 1].1])
  }

  /** `Models::load`: the square, cube and niko models, in that order (the data of each
      model is passed in: two are constant tables, niko is read from a file). */
  function Load(square: ModelData, cube: ModelData, niko: ModelData): Models
  {
    var (vertices, indices) := Unzip([square, cube, niko]);
    Models(LoadVertices(vertices), LoadIndices(indices))
  }

  /** `load_vertices`: `Linear2dVec::from` over the per-model vertex lists. */
  function LoadVertices(vertices: seq<seq<Color.ColorVertex>>): Linear2dVec<Color.ColorVertex>
  {
    Flattened(vertices)
  }

  /** `load_indices`: `Linear2dVec::from` over the per-model index lists. */
  function LoadIndices(indices: seq<seq<U16>>): Linear2dVec<U16>
  {
    Flattened(indices)
  }

  /** `into_properties`: one entry per zipped (vertex partition, index partition) pair, in
      order, with the counts and offsets cast as the source casts them. */
  function IntoProperties(m: Models): (r: seq<ModelProperties>)
    ensures |r| == if |m.vertices.parts| <= |m.indices.parts| then |m.vertices.parts| else |m.indices.parts|
    ensures forall k :: 0 <= k < |r| ==>
      && r[k].vertexCount == AsU32(m.vertices.parts[k].size)
      && r[k].vertexOffset == AsI32(m.vertices.parts[k].offset)
      && r[k].indexCount == AsU32(m.indices.parts[k].size)
      && r[k].indexOffset == AsU32(m.indices.parts[k].offset)
  {
    var n := if |m.vertices.parts| <= |m.indices.parts| then |m.vertices.parts| else |m.indices.parts|;
    seq(n, k requires 0 <= k < n =>
      ModelProperties(AsU32(m.vertices.parts[k].size), AsI32(m.vertices.parts[k].offset),
                      AsU32(m.indices.parts[k].size), AsU32(m.indices.parts[k].offset)))
  }

  // ---------------------------------------------------------------------------
  // Properties

  /** The partitions of three chunks: each one starts where the previous one ends. */
  lemma ThreeParts<T>(a: seq<T>, b: seq<T>, c: seq<T>)
    ensures Parts([a, b, c]) == [Partition(|a|, 0), Partition(|b|, |a|), Partition(|c|, |a| + |b|)]
  {
    var chunks := [a, b, c];
    assert chunks[..0] == [];
    assert chunks[..1] == [a] && [a][..0] == [];
    assert chunks[..2] == [a, b] && [a, b][..1] == [a];
    PartsAt(chunks, 0);
    PartsAt(chunks, 1);
    PartsAt(chunks, 2);
  }

  /** `load` concatenates the models in the order square, cube, niko: partition
      `SQUARE_INDEX`, `CUBE_INDEX` and `NIKO_INDEX` of each vector covers exactly that
      model's data, and the partitions follow one another. */
  lemma LoadOrder(square: ModelData, cube: ModelData, niko: ModelData)
    ensures var m := Load(square, cube, niko);
      && m.vertices.parts == [Partition(|square.0|, 0), Partition(|cube.0|, |square.0|),
                              Partition(|niko.0|, |square.0| + |cube.0|)]
      && m.indices.parts == [Partition(|square.1|, 0), Partition(|cube.1|, |square.1|),
                             Partition(|niko.1|, |square.1| + |cube.1|)]
      && m.vertices.parts[SQUARE_INDEX].offset + m.vertices.parts[SQUARE_INDEX].size <= |m.vertices.data|
      && m.vertices.parts[CUBE_INDEX].offset + m.vertices.parts[CUBE_INDEX].size <= |m.vertices.data|
      && m.vertices.parts[NIKO_INDEX].offset + m.vertices.parts[NIKO_INDEX].size <= |m.vertices.data|
      && m.indices.parts[SQUARE_INDEX].offset + m.indices.parts[SQUARE_INDEX].size <= |m.indices.data|
      && m.indices.parts[CUBE_INDEX].offset + m.indices.parts[CUBE_INDEX].size <= |m.indices.data|
      && m.indices.parts[NIKO_INDEX].offset + m.indices.parts[NIKO_INDEX].size <= |m.indices.data|
      && Index(m.vertices, SQUARE_INDEX) == square.0 && Index(m.indices, SQUARE_INDEX) == square.1
      && Index(m.vertices, CUBE_INDEX) == cube.0 && Index(m.indices, CUBE_INDEX) == cube.1
      && Index(m.vertices, NIKO_INDEX) == niko.0 && Index(m.indices, NIKO_INDEX) == niko.1
  {
    var u := Unzip([square, cube, niko]);
    assert u.0 == [square.0, cube.0, niko.0];
    assert u.1 == [square.1, cube.1, niko.1];
    ThreeParts(square.0, cube.0, niko.0);
    ThreeParts(square.1, cube.1, niko.1);
    IndexRoundTrip(u.0, 0);
    IndexRoundTrip(u.0, 1);
    IndexRoundTrip(u.0, 2);
    IndexRoundTrip(u.1, 0);
    IndexRoundTrip(u.1, 1);
    IndexRoundTrip(u.1, 2);
  }

  /** The properties of the loaded models: one entry per model, each with its own counts
      and the running offsets, as long as the sizes fit the `i32`/`u32` casts. */
  lemma LoadedProperties(square: ModelData, cube: ModelData, niko: ModelData)
    requires |square.0| + |cube.0| + |niko.0| < 0x8000_0000
    requires |square.1| + |cube.1| + |niko.1| < 0x8000_0000
    ensures IntoProperties(Load(square, cube, niko)) == [
      ModelProperties(|square.0|, 0, |square.1|, 0),
      ModelProperties(|cube.0|, |square.0|, |cube.1|, |square.1|),
      ModelProperties(|niko.0|, |square.0| + |cube.0|, |niko.1|, |square.1| + |cube.1|)]
  {
    LoadOrder(square, cube, niko);
  }
}
