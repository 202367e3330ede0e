/** The static scene: the objects whose instance data never changes, grouped by model
    (src/static_scene.rs). */
module StaticScene {
  import opened Linear2dVec
  import Models
  import Instance

  /** A renderable object, reduced to the model matrix its instance record carries. */
  datatype Renderable = Renderable(model: Instance.Matrix4)

  /** `StaticScene`. */
  datatype StaticScene = StaticScene(totalObjCount: nat, squares: seq<Renderable>, cubes: seq<Renderable>)

  /** `StaticScene::load`: one square and no cubes; the square's model matrix (computed
      from its position by floating-point code) is passed in. */
  function Load(square: Renderable): (r: StaticScene)
    ensures r.squares == [square] && r.cubes == []
    ensures r.totalObjCount == |r.squares| + |r.cubes|
  {
    var squares := [square];
    var cubes := [];
    StaticScene(|squares| + |cubes|, squares, cubes)
  }

  /** `objects`: the objects grouped squares then cubes in one partitioned vector,
      together with the model index of each group. */
  function Objects(s: StaticScene): (r: (Linear2dVec<Renderable>, seq<nat>))
    ensures r.1 == [Models.SQUARE_INDEX, Models.CUBE_INDEX]
  {
    (Flattened([s.squares, s.cubes]), [Models.SQUARE_INDEX, Models.CUBE_INDEX])
  }

  // ---------------------------------------------------------------------------
  // Properties

  /** Groups and model indices correspond one to one; the square group starts at 0, the
      cube group right after it, and the flattened length is the number of objects. */
  lemma ObjectsLayout(s: StaticScene)
    ensures var (objs, indices) := Objects(s);
      && |objs.parts| == |indices| == 2
      && objs.parts == [Partition(|s.squares|, 0), Partition(|s.cubes|, |s.squares|)]
      && |s.squares| + |s.cubes| <= |objs.data|
      && Index(objs, 0) == s.squares && Index(objs, 1) == s.cubes
      && Len(objs) == |s.squares| + |s.cubes|
  {
    var chunks := [s.squares, s.cubes];
    assert chunks[..1] == [s.squares] && [s.squares][..0] == [];
    PartsAt(chunks, 0);
    PartsAt(chunks, 1);
    IndexRoundTrip(chunks, 0);
    IndexRoundTrip(chunks, 1);
    LenIsLastEnd(chunks);
  }

  /** For the loaded scene the flattened length is `total_obj_count`, which is 1. */
  lemma LoadedObjectCount(square: Renderable)
    ensures Len(Objects(Load(square)).0) == Load(square).totalObjCount == 1
  {
    ObjectsLayout(Load(square));
  }
}
