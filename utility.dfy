/** Small helpers of the renderer (src/render/utility.rs): `contains_all`, which sorts a
    slice in place and looks every wanted item up in it, and `i8_array_to_string`, which
    decodes a NUL-terminated C character array. The slice operations `sort` and
    `binary_search` of the Rust standard library are modelled here too, since
    `contains_all` and the validation-layer check are built on them. Items compared by
    `contains_all` (extension and layer names) are represented by integer codes. */
module Utility {
  import opened Wrappers
  import opened Scalars

  // ---------------------------------------------------------------------------
  // `slice::sort` and `slice::binary_search`

  predicate Sorted(s: seq<int>)
  {
    forall i, j :: 0 <= i < j < |s| ==> s[i] <= s[j]
  }

  /** `slice::sort`: sorts `a` ascending in place, keeping its elements. */
  method Sort(a: array<int>)
    modifies a
    ensures Sorted(a[..])
    ensures multiset(a[..]) == multiset(old(a[..]))
  {
    for i := 0 to a.Length
      invariant forall p, q :: 0 <= p < q < i ==> a[p] <= a[q]
      invariant multiset(a[..]) == multiset(old(a[..]))
    {
      InsertLast(a, i);
    }
  }

  /** One step of the sort: moves `a[i]` down into the sorted prefix `a[..i]`. */
  method InsertLast(a: array<int>, i: nat)
    requires i < a.Length
    requires forall p, q :: 0 <= p < q < i ==> a[p] <= a[q]
    modifies a
    ensures forall p, q :: 0 <= p < q <= i ==> a[p] <= a[q]
    ensures multiset(a[..]) == multiset(old(a[..]))
  {
    var j := i;
    while j > 0 && a[j - 1] > a[j]
      invariant 0 <= j <= i
      invariant multiset(a[..]) == multiset(old(a[..]))
      invariant forall p, q :: 0 <= p < q <= i && q != j ==> a[p] <= a[q]
      invariant 0 < j < i ==> a[j - 1] <= a[j + 1]
    {
      SwapDown(a, j);
      j := j - 1;
    }
  }

  /** Swaps `a[j - 1]` and `a[j]`. */
  method SwapDown(a: array<int>, j: nat)
    requires 0 < j < a.Length
    modifies a
    ensures a[j - 1] == old(a[j]) && a[j] == old(a[j - 1])
    ensures forall k :: 0 <= k < a.Length && k != j - 1 && k != j ==> a[k] == old(a[k])
    ensures multiset(a[..]) == multiset(old(a[..]))
  {
    a[j - 1], a[j] := a[j], a[j - 1];
  }

  /** `slice::binary_search` on a sorted slice: `Ok(i)` with `a[i] == x` when `x` occurs,
      else `Err(p)`, the position where `x` would be inserted to keep the order. */
  method BinarySearch(a: array<int>, x: int) returns (r: Result<nat, nat>)
    requires Sorted(a[..])
    ensures r.Ok? ==> r.value < a.Length && a[r.value] == x
    ensures r.Err? ==> x !in a[..]
    ensures r.Err? ==> r.error <= a.Length
    ensures r.Err? ==> forall k :: 0 <= k < r.error ==> a[k] < x
    ensures r.Err? ==> forall k :: r.error <= k < a.Length ==> x < a[k]
  {
    var lo, hi := 0, a.Length;
    while lo < hi
      invariant 0 <= lo <= hi <= a.Length
      invariant forall k :: 0 <= k < lo ==> a[k] < x
      invariant forall k :: hi <= k < a.Length ==> x < a[k]
    {
      var mid := lo + (hi - lo) / 2;
      if a[mid] < x {
        lo := mid + 1;
      } else if x < a[mid] {
        hi := mid;
      } else {
        return Ok(mid);
      }
    }
    return Err(lo);
  }

  // ---------------------------------------------------------------------------
  // `contains_all`

  /** The first item of `wanted`, in order, that does not occur in `available`. */
  function FirstMissing(available: seq<int>, wanted: seq<int>): Option<int>
  {
    if wanted == [] then None
    else if wanted[0] !in available then Some(wanted[0])
    else FirstMissing(available, wanted[1..])
  }

  /** `contains_all(slice, other)`: sorts `slice`, then returns `Err(item)` for the first
      item of `other` that the sorted slice does not contain, or `Ok(())`. */
  method ContainsAll(slice: array<int>, other: seq<int>) returns (r: Result<(), int>)
    modifies slice
    ensures Sorted(slice[..])
    ensures multiset(slice[..]) == multiset(old(slice[..]))
    ensures r.Ok? <==> FirstMissing(old(slice[..]), other).None?
    ensures r.Err? ==> FirstMissing(old(slice[..]), other) == Some(r.error)
  {
    ghost var original := slice[..];
    Sort(slice);
    for k := 0 to |other|
      invariant Sorted(slice[..])
      invariant multiset(slice[..]) == multiset(original)
      invariant FirstMissing(original, other) == FirstMissing(original, other[k..])
    {
      var found := BinarySearch(slice, other[k]);
      assert other[k] in slice[..] <==> other[k] in original by {
        assert other[k] in slice[..] <==> other[k] in multiset(slice[..]);
        assert other[k] in original <==> other[k] in multiset(original);
      }
      assert other[k..][1..] == other[k + 1..];
      if found.Err? {
        return Err(other[k]);
      }
    }
    return Ok(());
  }

  /** `contains_all` succeeds exactly when every wanted item is available; an empty
      `other` always succeeds. */
  lemma {:induction false} FirstMissingNoneIff(available: seq<int>, wanted: seq<int>)
    ensures FirstMissing(available, wanted).None? <==> forall x :: x in wanted ==> x in available
  {
    if wanted != [] {
      FirstMissingNoneIff(available, wanted[1..]);
      assert forall x :: x in wanted <==> x == wanted[0] || x in wanted[1..];
    }
  }

  /** On failure the reported item is the first wanted one that is missing: it is at some
      position k of `wanted`, it is not available, and every item before it is. */
  lemma {:induction false} FirstMissingIsFirst(available: seq<int>, wanted: seq<int>)
    requires FirstMissing(available, wanted).Some?
    ensures exists k ::
      && 0 <= k < |wanted|
      && wanted[k] == FirstMissing(available, wanted).value
      && wanted[k] !in available
      && forall j :: 0 <= j < k ==> wanted[j] in available
  {
    if wanted[0] in available {
      FirstMissingIsFirst(available, wanted[1..]);
      var k :| 0 <= k < |wanted[1..]| && wanted[1..][k] == FirstMissing(available, wanted).value
        && wanted[1..][k] !in available
        && forall j :: 0 <= j < k ==> wanted[1..][j] in available;
      assert wanted[k + 1] == wanted[1..][k];
      assert forall j :: 0 <= j < k + 1 ==> wanted[j] in available by {
        forall j | 0 <= j < k + 1 ensures wanted[j] in available {
          if j > 0 {
            assert wanted[j] == wanted[1..][j - 1];
          }
        }
      }
    } else {
      assert wanted[0] == FirstMissing(available, wanted).value;
    }
  }

  /** The answer depends only on which items are available, not on their order, so
      sorting the slice first does not change it. */
  lemma {:induction false} FirstMissingIgnoresOrder(a: seq<int>, b: seq<int>, wanted: seq<int>)
    requires multiset(a) == multiset(b)
    ensures FirstMissing(a, wanted) == FirstMissing(b, wanted)
  {
    if wanted != [] {
      assert wanted[0] in a <==> wanted[0] in multiset(a);
      assert wanted[0] in b <==> wanted[0] in multiset(b);
      FirstMissingIgnoresOrder(a, b, wanted[1..]);
    }
  }

  // ---------------------------------------------------------------------------
  // UTF-8 and `i8_array_to_string`

  /** An `i8`, the element type of C character arrays. */
  type I8 = x: int | -128 <= x < 128

  /** `b as u8`: the two's-complement bit pattern. */
  function AsU8(b: I8): (r: Byte)
    ensures r == 0 <==> b == 0
    ensures (r - b) % 256 == 0
  {
    if b < 0 then b + 256 else b
  }

  /** `b as i8`, the inverse of `AsU8`. */
  function AsI8(b: Byte): (r: I8)
    ensures AsU8(r) == b
  {
    if b < 128 then b else b - 256
  }

  predicate IsContinuation(b: Byte)
  {
    0x80 <= b <= 0xBF
  }

  /** The length of the well-formed UTF-8 sequence (Unicode Table 3-7, as `from_utf8`
      checks it) at the start of `b`, or 0 when `b` does not start with one. */
  function CharWidth(b: seq<Byte>): (r: nat)
    requires |b| > 0
    ensures r <= 4 && r <= |b|
  {
    var b0 := b[0];
    if b0 < 0x80 then 1
    else if 0xC2 <= b0 <= 0xDF then
      if |b| >= 2 && IsContinuation(b[1]) then 2 else 0
    else if b0 == 0xE0 then
      if |b| >= 3 && 0xA0 <= b[1] <= 0xBF && IsContinuation(b[2]) then 3 else 0
    else if (0xE1 <= b0 <= 0xEC) || b0 == 0xEE || b0 == 0xEF then
      if |b| >= 3 && IsContinuation(b[1]) && IsContinuation(b[2]) then 3 else 0
    else if b0 == 0xED then
      if |b| >= 3 && 0x80 <= b[1] <= 0x9F && IsContinuation(b[2]) then 3 else 0
    else if b0 == 0xF0 then
      if |b| >= 4 && 0x90 <= b[1] <= 0xBF && IsContinuation(b[2]) && IsContinuation(b[3]) then 4 else 0
    else if 0xF1 <= b0 <= 0xF3 then
      if |b| >= 4 && IsContinuation(b[1]) && IsContinuation(b[2]) && IsContinuation(b[3]) then 4 else 0
    else if b0 == 0xF4 then
      if |b| >= 4 && 0x80 <= b[1] <= 0x8F && IsContinuation(b[2]) && IsContinuation(b[3]) then 4 else 0
    else 0
  }

  /** `b` is a sequence of well-formed UTF-8 characters. */
  predicate ValidUtf8(b: seq<Byte>)
    decreases |b|
  {
    b == [] || (CharWidth(b) > 0 && ValidUtf8(b[CharWidth(b)..]))
  }

  /** `FromUtf8Error`, which hands back the rejected bytes. */
  datatype FromUtf8Error = FromUtf8Error(bytes: seq<Byte>)

  /** The bytes of `arr` before its first 0, as `u8`, or all of them when there is no 0. */
  function BeforeNul(arr: seq<I8>): seq<Byte>
  {
    if arr == [] || arr[0] == 0 then [] else [AsU8(arr[0])] + BeforeNul(arr[1..])
  }

  /** `String::from_utf8`; a Rust `String` is kept as its UTF-8 bytes. */
  function FromUtf8(bytes: seq<Byte>): (r: Result<seq<Byte>, FromUtf8Error>)
    ensures r.Ok? <==> ValidUtf8(bytes)
    ensures r.Ok? ==> r.value == bytes
    ensures r.Err? ==> r.error.bytes == bytes
  {
    if ValidUtf8(bytes) then Ok(bytes) else Err(FromUtf8Error(bytes))
  }

  /** `i8_array_to_string`: pushes the bytes of `arr` until the first 0, then checks them
      as UTF-8. */
  method I8ArrayToString(arr: seq<I8>) returns (r: Result<seq<Byte>, FromUtf8Error>)
    ensures r == FromUtf8(BeforeNul(arr))
  {
    var bytes: seq<Byte> := [];
    for k := 0 to |arr|
      invariant bytes + BeforeNul(arr[k..]) == BeforeNul(arr)
    {
      if arr[k] == 0 {
        assert bytes == BeforeNul(arr);
        break;
      }
      assert arr[k..][1..] == arr[k + 1..];
      bytes := bytes + [AsU8(arr[k])];
    }
    assert bytes == BeforeNul(arr);
    r := FromUtf8(bytes);
  }

  /** The bytes used are exactly those of `arr` before its first 0: each is the `u8` of the
      element at the same position, none is 0, and they stop at a 0 or at the end. */
  lemma {:induction false} BeforeNulSpec(arr: seq<I8>)
    ensures var r := BeforeNul(arr);
      && |r| <= |arr|
      && (forall i :: 0 <= i < |r| ==> r[i] == AsU8(arr[i]) && arr[i] != 0)
      && (|r| == |arr| || arr[|r|] == 0)
  {
    if arr != [] && arr[0] != 0 {
      BeforeNulSpec(arr[1..]);
      var r := BeforeNul(arr);
      assert forall i :: 1 <= i < |r| ==> r[i] == BeforeNul(arr[1..])[i - 1] && arr[i] == arr[1..][i - 1];
    }
  }

  /** Round trip: a string without NUL bytes, written into a C array as `i8`s and followed
      by a terminating 0 and anything else, is read back as the same bytes. */
  lemma {:induction false} BeforeNulRoundTrip(s: seq<Byte>, tail: seq<I8>)
    requires forall i :: 0 <= i < |s| ==> s[i] != 0
    ensures BeforeNul(seq(|s|, i requires 0 <= i < |s| => AsI8(s[i])) + [0] + tail) == s
  {
    var enc := seq(|s|, i requires 0 <= i < |s| => AsI8(s[i]));
    if s != [] {
      var enc' := seq(|s| - 1, i requires 0 <= i < |s| - 1 => AsI8(s[1..][i]));
      assert (enc + [0] + tail)[1..] == enc' + [0] + tail;
      BeforeNulRoundTrip(s[1..], tail);
      assert s == [s[0]] + s[1..];
    } else {
      assert enc + [0] + tail == [0] + tail;
    }
  }

  /** ASCII text (every byte below 0x80), such as an extension or layer name, is valid
      UTF-8, so `i8_array_to_string` accepts it. */
  lemma {:induction false} AsciiIsValidUtf8(s: seq<Byte>)
    requires forall i :: 0 <= i < |s| ==> s[i] < 0x80
    ensures ValidUtf8(s)
  {
    if s != [] {
      AsciiIsValidUtf8(s[1..]);
    }
  }

  /** A lone continuation byte, a truncated two-byte sequence and an encoded surrogate are
      all rejected. */
  lemma Utf8Rejects()
    ensures !ValidUtf8([0x80])
    ensures !ValidUtf8([0xC3])
    ensures !ValidUtf8([0xED, 0xA0, 0x80])
    ensures ValidUtf8([0xC3, 0xA9])
  {
    assert [0xC3, 0xA9][2..] == [];
  }
}
