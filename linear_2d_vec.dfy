/** The partition table: a vector of vectors flattened into one data vector plus one
    `Partition {size, offset}` per chunk (src/structures/linear_2d_vec.rs and
    src/structures/partition.rs). */
module Linear2dVec {

  /** `Partition<usize>`: where one chunk lives inside the flattened data. */
  datatype Partition = Partition(size: nat, offset: nat)

  /** `Linear2dVec<T>`: the flattened data and its partitions. */
  datatype Linear2dVec<T> = Linear2dVec(data: seq<T>, parts: seq<Partition>)

  // ---------------------------------------------------------------------------
  // Reference definitions

  /** All chunks, one after the other. */
  function Concat<T>(chunks: seq<seq<T>>): seq<T>
  {
    if chunks == [] then [] else Concat(chunks[..|chunks| - 1]) + chunks[|chunks| - 1]
  }

  /** The sum of the chunk lengths. */
  function TotalLen<T>(chunks: seq<seq<T>>): nat
  {
    if chunks == [] then 0 else TotalLen(chunks[..|chunks| - 1]) + |chunks[|chunks| - 1]|
  }

  /** The partition list the table is meant to hold: chunk i has its own length as size
      and, as offset, the total length of the chunks before it. */
  function Parts<T>(chunks: seq<seq<T>>): seq<Partition>
  {
    if chunks == [] then []
    else Parts(chunks[..|chunks| - 1]) + [Partition(|chunks[|chunks| - 1]|, TotalLen(chunks[..|chunks| - 1]))]
  }

  /** The table built from `chunks`. */
  function Flattened<T>(chunks: seq<seq<T>>): Linear2dVec<T>
  {
    Linear2dVec(Concat(chunks), Parts(chunks))
  }

  // ---------------------------------------------------------------------------
  // Construction (`sized_flatten!`, `from_vec` and the two `From` iterator impls)

  /** `sized_flatten!`: one running-offset loop pushes the partitions, then the chunks are
      flattened into the data vector. */
  method SizedFlatten<T>(x: seq<seq<T>>) returns (data: seq<T>, part: seq<Partition>)
    ensures data == Concat(x) && part == Parts(x)
    ensures |part| == |x|
    ensures forall i :: 0 <= i < |x| ==> part[i].size == |x[i]|
  {
    var offset: nat := 0;
    part := [];
    for k := 0 to |x|
      invariant part == Parts(x[..k])
      invariant offset == TotalLen(x[..k])
    {
      var size := |x[k]|;
      part := part + [Partition(size, offset)];
      offset := offset + size;
      assert x[..k + 1][..k] == x[..k];
    }
    assert x[..|x|] == x;
    data := Concat(x);
    PartsPrefix(x, 0);
    forall i | 0 <= i < |x|
      ensures part[i].size == |x[i]|
    {
      PartsAt(x, i);
    }
  }

  /** `Linear2dVec::from_vec`. */
  method FromVec<T>(v: seq<seq<T>>) returns (r: Linear2dVec<T>)
    ensures r == Flattened(v)
    ensures |r.parts| == |v| && |r.data| == TotalLen(v)
  {
    var data, parts := SizedFlatten(v);
    r := Linear2dVec(data, parts);
    ConcatLength(v);
  }

  /** `From<&mut dyn ExactSizeIterator<Item = Vec<T>>>` and `From<&mut dyn Iterator<..>>`:
      a `flat_map` whose closure pushes the chunk's partition, bumps the running offset
      and yields the chunk's elements into the data vector. */
  method FromIterator<T>(items: seq<seq<T>>) returns (r: Linear2dVec<T>)
    ensures r == Flattened(items)
    ensures |r.parts| == |items| && |r.data| == TotalLen(items)
  {
    var offset: nat := 0;
    var parts: seq<Partition> := [];
    var data: seq<T> := [];
    for k := 0 to |items|
      invariant parts == Parts(items[..k])
      invariant data == Concat(items[..k])
      invariant offset == TotalLen(items[..k])
    {
      var item := items[k];
      var size := |item|;
      parts := parts + [Partition(size, offset)];
      offset := offset + size;
      data := data + item;
      assert items[..k + 1][..k] == items[..k];
    }
    assert items[..|items|] == items;
    r := Linear2dVec(data, parts);
    ConcatLength(items);
    PartsPrefix(items, 0);
  }

  // ---------------------------------------------------------------------------
  // Accessors

  /** `len`: the number of flattened elements. */
  function Len<T>(v: Linear2dVec<T>): nat
  {
    |v.data|
  }

  /** `offset(i)`; indexing past the partition list panics in the source. */
  function Offset<T>(v: Linear2dVec<T>, i: nat): nat
    requires i < |v.parts|
  {
    v.parts[i].offset
  }

  /** `part(i)`. */
  function Part<T>(v: Linear2dVec<T>, i: nat): Partition
    requires i < |v.parts|
  {
    v.parts[i]
  }

  /** `Index<usize>`: the slice that partition i describes. The source panics when the
      index or the slice bounds are out of range. */
  function Index<T>(v: Linear2dVec<T>, i: nat): (r: seq<T>)
    requires i < |v.parts|
    requires v.parts[i].offset + v.parts[i].size <= |v.data|
    ensures |r| == v.parts[i].size
    ensures forall k :: 0 <= k < |r| ==> r[k] == v.data[v.parts[i].offset + k]
  {
    v.data[v.parts[i].offset..v.parts[i].offset + v.parts[i].size]
  }

  /** `deconstruct`: hands back data and partitions unchanged. */
  function Deconstruct<T>(v: Linear2dVec<T>): (r: (seq<T>, seq<Partition>))
    ensures Linear2dVec(r.0, r.1) == v
  {
    (v.data, v.parts)
  }

  // ---------------------------------------------------------------------------
  // Properties

  lemma {:induction false} ConcatLength<T>(chunks: seq<seq<T>>)
    ensures |Concat(chunks)| == TotalLen(chunks)
  {
    if chunks != [] {
      ConcatLength(chunks[..|chunks| - 1]);
    }
  }

  /** A prefix of the chunk list has a prefix of the partition list. */
  lemma {:induction false} PartsPrefix<T>(chunks: seq<seq<T>>, n: nat)
    requires n <= |chunks|
    ensures |Parts(chunks)| == |chunks|
    ensures Parts(chunks[..n]) == Parts(chunks)[..n]
  {
    if n < |chunks| {
      var init := chunks[..|chunks| - 1];
      assert chunks[..n] == init[..n];
      PartsPrefix(init, n);
    } else {
      assert chunks[..n] == chunks;
      if chunks != [] {
        PartsPrefix(chunks[..|chunks| - 1], |chunks| - 1);
      }
    }
  }

  /** One partition per chunk, in input order: partition i has the chunk's length as size
      and the total length of the earlier chunks as offset. */
  lemma {:induction false} PartsAt<T>(chunks: seq<seq<T>>, i: nat)
    requires i < |chunks|
    ensures |Parts(chunks)| == |chunks|
    ensures Parts(chunks)[i] == Partition(|chunks[i]|, TotalLen(chunks[..i]))
  {
    PartsPrefix(chunks, i + 1);
    var pre := chunks[..i + 1];
    assert pre[..|pre| - 1] == chunks[..i];
    assert Parts(pre)[i] == Partition(|chunks[i]|, TotalLen(chunks[..i]));
  }

  lemma {:induction false} ConcatAppend<T>(a: seq<seq<T>>, b: seq<seq<T>>)
    ensures Concat(a + b) == Concat(a) + Concat(b)
  {
    if b == [] {
      assert a + b == a;
    } else {
      var b' := b[..|b| - 1];
      assert (a + b)[..|a + b| - 1] == a + b';
      ConcatAppend(a, b');
    }
  }

  lemma {:induction false} TotalLenSplit<T>(chunks: seq<seq<T>>, i: nat)
    requires i < |chunks|
    ensures TotalLen(chunks[..i + 1]) == TotalLen(chunks[..i]) + |chunks[i]|
  {
    assert chunks[..i + 1][..i] == chunks[..i];
  }

  /** Partitions are contiguous and do not overlap: each one starts where the previous
      one ends. */
  lemma Contiguous<T>(chunks: seq<seq<T>>, i: nat)
    requires i + 1 < |chunks|
    ensures |Parts(chunks)| == |chunks|
    ensures Parts(chunks)[i + 1].offset == Parts(chunks)[i].offset + Parts(chunks)[i].size
  {
    PartsAt(chunks, i);
    PartsAt(chunks, i + 1);
    TotalLenSplit(chunks, i);
  }

  /** `len()` is the sum of the chunk lengths, which is where the last partition ends. */
  lemma LenIsLastEnd<T>(chunks: seq<seq<T>>)
    ensures Len(Flattened(chunks)) == TotalLen(chunks)
    ensures |Parts(chunks)| == |chunks|
    ensures chunks != [] ==>
      var last := Parts(chunks)[|chunks| - 1];
      Len(Flattened(chunks)) == last.offset + last.size
  {
    ConcatLength(chunks);
    PartsPrefix(chunks, 0);
    if chunks != [] {
      PartsAt(chunks, |chunks| - 1);
      TotalLenSplit(chunks, |chunks| - 1);
      assert chunks[..|chunks|] == chunks;
    }
  }

  /** The concatenation splits around chunk i. */
  lemma {:induction false} ConcatAround<T>(chunks: seq<seq<T>>, i: nat)
    requires i < |chunks|
    ensures Concat(chunks) == Concat(chunks[..i]) + chunks[i] + Concat(chunks[i + 1..])
  {
    var upTo := chunks[..i + 1];
    assert chunks == upTo + chunks[i + 1..];
    ConcatAppend(upTo, chunks[i + 1..]);
    assert upTo[..i] == chunks[..i];
    assert Concat(upTo) == Concat(chunks[..i]) + chunks[i];
  }

  /** The middle part of a three-way concatenation is found at the first part's length. */
  lemma MiddleSlice<T>(a: seq<T>, b: seq<T>, c: seq<T>)
    ensures (a + b + c)[|a|..|a| + |b|] == b
  {
  }

  /** Round trip: indexing the table built from `chunks` gives back chunk i. */
  lemma IndexRoundTrip<T>(chunks: seq<seq<T>>, i: nat)
    requires i < |chunks|
    ensures i < |Flattened(chunks).parts|
    ensures Parts(chunks)[i].offset + Parts(chunks)[i].size <= |Concat(chunks)|
    ensures Index(Flattened(chunks), i) == chunks[i]
  {
    PartsAt(chunks, i);
    ConcatAround(chunks, i);
    ConcatLength(chunks[..i]);
    MiddleSlice(Concat(chunks[..i]), chunks[i], Concat(chunks[i + 1..]));
  }

  /** `part(i)` and `offset(i)` of the table built from `chunks` report chunk i's place. */
  lemma PartOfFlattened<T>(chunks: seq<seq<T>>, i: nat)
    requires i < |chunks|
    ensures i < |Flattened(chunks).parts|
    ensures Part(Flattened(chunks), i) == Partition(|chunks[i]|, TotalLen(chunks[..i]))
    ensures Offset(Flattened(chunks), i) == TotalLen(chunks[..i])
  {
    PartsAt(chunks, i);
  }
}
