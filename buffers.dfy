/** Device-memory layout for groups of buffers that share one allocation, memory-type
    selection and buffer create infos (src/render/objects/buffers/mod.rs). */
module Buffers {
  import opened Wrappers
  import opened Vk

  // ---------------------------------------------------------------------------
  // Usage and memory-property combinations

  const VERTEX_DST_USAGE: Flags := BUFFER_USAGE_VERTEX_BUFFER + BUFFER_USAGE_TRANSFER_DST
  const STORAGE_SRC_USAGE: Flags := BUFFER_USAGE_TRANSFER_SRC + BUFFER_USAGE_STORAGE_BUFFER
  const VERTEX_STORAGE_DST_USAGE: Flags := VERTEX_DST_USAGE + BUFFER_USAGE_STORAGE_BUFFER
  const STORAGE_USAGE: Flags := BUFFER_USAGE_TRANSFER_SRC + BUFFER_USAGE_TRANSFER_DST + BUFFER_USAGE_STORAGE_BUFFER
  const INDEX_DST_USAGE: Flags := BUFFER_USAGE_INDEX_BUFFER + BUFFER_USAGE_TRANSFER_DST

  const HOST_MEMORY_PROPERTY_FLAGS: Flags := MEMORY_PROPERTY_HOST_VISIBLE + MEMORY_PROPERTY_HOST_COHERENT
  const LOCAL_MEMORY_PROPERTY_FLAGS: Flags := MEMORY_PROPERTY_DEVICE_LOCAL + MEMORY_PROPERTY_HOST_COHERENT

  /** `VK_MAX_MEMORY_TYPES`: the length of the memory-type array of
      `VkPhysicalDeviceMemoryProperties`. */
  const MAX_MEMORY_TYPES: nat := 32

  /** What `vkGetBufferMemoryRequirements` reports for one buffer. */
  datatype MemoryRequirements = MemoryRequirements(size: nat, alignment: nat, memoryTypeBits: Flags)

  /** The property flags of each of the `MAX_MEMORY_TYPES` memory-type entries (unused
      entries hold empty flags). */
  datatype MemoryProperties = MemoryProperties(memoryTypes: seq<Flags>)

  datatype AllocError =
    | AlignmentNotPowerOfTwo   // the debug assertion on each reported alignment
    | NoSuitableMemoryType     // `find_memory_type` panics

  /** The result of `allocate_vk_buffers`: memory, total size and one offset per buffer. */
  datatype Allocation = Allocation(memory: Handle, size: nat, offsets: seq<nat>)

  // ---------------------------------------------------------------------------
  // Reference definitions of the layout

  /** A positive power of two, the arithmetic reading of `a > 0 && a & (a - 1) == 0`. */
  predicate IsPowerOfTwo(n: nat)
  {
    if n == 0 then false else if n == 1 then true else n % 2 == 0 && IsPowerOfTwo(n / 2)
  }

  /** Bitwise OR of the memory-type bits of all buffers. */
  function TypeFilter(reqs: seq<MemoryRequirements>): Flags
  {
    if reqs == [] then {} else TypeFilter(reqs[..|reqs| - 1]) + reqs[|reqs| - 1].memoryTypeBits
  }

  /** The largest alignment, 0 for no buffers. */
  function MaxAlignment(reqs: seq<MemoryRequirements>): nat
  {
    if reqs == [] then 0
    else
      var m := MaxAlignment(reqs[..|reqs| - 1]);
      if m < reqs[|reqs| - 1].alignment then reqs[|reqs| - 1].alignment else m
  }

  function Sizes(reqs: seq<MemoryRequirements>): (r: seq<nat>)
    ensures |r| == |reqs| && forall i :: 0 <= i < |reqs| ==> r[i] == reqs[i].size
  {
    if reqs == [] then [] else Sizes(reqs[..|reqs| - 1]) + [reqs[|reqs| - 1].size]
  }

  /** The padding rule `size + a - size % a`. */
  function PaddedSize(size: nat, a: nat): nat
    requires a > 0
  {
    size + a - size % a
  }

  /** Offsets by running sum of the padded sizes, and the total. */
  function Layout(sizes: seq<nat>, a: nat): (seq<nat>, nat)
    requires sizes == [] || a > 0
  {
    if sizes == [] then ([], 0)
    else
      var prev := Layout(sizes[..|sizes| - 1], a);
      (prev.0 + [prev.1], prev.1 + PaddedSize(sizes[|sizes| - 1], a))
  }

  /** The type filter, alignment, offsets and total size of a buffer group. */
  datatype MemoryLayout = MemoryLayout(filter: Flags, alignment: nat, offsets: seq<nat>, size: nat)

  function LayoutOf(reqs: seq<MemoryRequirements>): Result<MemoryLayout, AllocError>
  {
    if exists i :: 0 <= i < |reqs| && !IsPowerOfTwo(reqs[i].alignment) then Err(AlignmentNotPowerOfTwo)
    else
      MaxAlignmentPositive(reqs);
      var a := MaxAlignment(reqs);
      var lay := Layout(Sizes(reqs), a);
      Ok(MemoryLayout(TypeFilter(reqs), a, lay.0, lay.1))
  }

  /** `flags.contains(required)`. */
  predicate ContainsFlags(flags: Flags, required: Flags)
  {
    required <= flags
  }

  /** Memory type i passes the filter and has the required flags. */
  predicate Suitable(filter: Flags, required: Flags, props: MemoryProperties, i: nat)
    requires i < |props.memoryTypes| && i < 32
  {
    i in filter && ContainsFlags(props.memoryTypes[i], required)
  }

  /** The first suitable memory type at index `from` or above. */
  function FirstSuitable(filter: Flags, required: Flags, props: MemoryProperties, from: nat): Option<nat>
    requires |props.memoryTypes| == MAX_MEMORY_TYPES
    requires from <= MAX_MEMORY_TYPES
    decreases MAX_MEMORY_TYPES - from
  {
    if from == MAX_MEMORY_TYPES then None
    else if Suitable(filter, required, props, from) then Some(from)
    else FirstSuitable(filter, required, props, from + 1)
  }

  /** What `find_memory_type` answers; `None` is its panic. */
  function MemoryTypeFor(filter: Flags, required: Flags, props: MemoryProperties): Option<nat>
    requires |props.memoryTypes| == MAX_MEMORY_TYPES
  {
    FirstSuitable(filter, required, props, 0)
  }

  /** The memory-allocation decisions of `allocate_vk_buffers`. */
  datatype Plan = Plan(memoryType: nat, size: nat, offsets: seq<nat>)

  function PlanAllocation(reqs: seq<MemoryRequirements>, props: MemoryProperties, required: Flags): Result<Plan, AllocError>
    requires |props.memoryTypes| == MAX_MEMORY_TYPES
  {
    match LayoutOf(reqs)
    case Err(e) => Err(e)
    case Ok(lay) =>
      match MemoryTypeFor(lay.filter, required, props)
      case None => Err(NoSuitableMemoryType)
      case Some(t) => Ok(Plan(t, lay.size, lay.offsets))
  }

  /** One bind per (buffer, offset) pair of the zip, at that buffer's own offset in the
      shared memory. */
  function BindEvents(buffers: seq<Handle>, memory: Handle, offsets: seq<nat>): (r: seq<Event>)
    ensures |r| == if |buffers| < |offsets| then |buffers| else |offsets|
    ensures forall i :: 0 <= i < |r| ==> r[i] == BindBufferMemory(buffers[i], memory, offsets[i])
  {
    var n := if |buffers| < |offsets| then |buffers| else |offsets|;
    if n == 0 then []
    else
      BindEvents(buffers[..n - 1], memory, offsets[..n - 1]) + [BindBufferMemory(buffers[n - 1], memory, offsets[n - 1])]
  }

  /** One `destroy_buffer` per buffer, in order. */
  function DestroyBufferEvents(buffers: seq<Handle>): (r: seq<Event>)
    ensures |r| == |buffers|
    ensures forall i :: 0 <= i < |buffers| ==> r[i] == DestroyBuffer(buffers[i])
  {
    if buffers == [] then [] else DestroyBufferEvents(buffers[..|buffers| - 1]) + [DestroyBuffer(buffers[|buffers| - 1])]
  }

  // ---------------------------------------------------------------------------
  // The allocator

  /** The two loops of `allocate_vk_buffers`: the first folds the memory-type bits (OR),
      the maximum alignment (debug-asserting that each one is a power of two) and the
      sizes; the second lays out the padded sizes by running sum. */
  method ComputeLayout(reqs: seq<MemoryRequirements>) returns (r: Result<MemoryLayout, AllocError>)
    ensures r == LayoutOf(reqs)
  {
    var folded := FoldRequirements(reqs);
    if folded.Err? {
      return Err(folded.error);
    }
    var (bits, alignment, fullSizes) := folded.value;
    var offsets, totalSize := PadAndLayOut(fullSizes, alignment);
    r := Ok(MemoryLayout(bits, alignment, offsets, totalSize));
  }

  /** The first loop of `allocate_vk_buffers`. */
  method FoldRequirements(reqs: seq<MemoryRequirements>) returns (r: Result<(Flags, nat, seq<nat>), AllocError>)
    ensures r.Err? <==> exists i :: 0 <= i < |reqs| && !IsPowerOfTwo(reqs[i].alignment)
    ensures r.Err? ==> r.error == AlignmentNotPowerOfTwo
    ensures r.Ok? ==> r.value == (TypeFilter(reqs), MaxAlignment(reqs), Sizes(reqs))
    ensures r.Ok? ==> reqs == [] || r.value.1 > 0
  {
    var bits: Flags := {};
    var alignment: nat := 0;
    var fullSizes: seq<nat> := [];
    for k := 0 to |reqs|
      invariant bits == TypeFilter(reqs[..k])
      invariant alignment == MaxAlignment(reqs[..k])
      invariant fullSizes == Sizes(reqs[..k])
      invariant forall j :: 0 <= j < k ==> IsPowerOfTwo(reqs[j].alignment)
    {
      var m := reqs[k];
      assert reqs[..k + 1][..k] == reqs[..k];
      bits := bits + m.memoryTypeBits;
      if !IsPowerOfTwo(m.alignment) {
        return Err(AlignmentNotPowerOfTwo);
      }
      alignment := if alignment < m.alignment then m.alignment else alignment;
      fullSizes := fullSizes + [m.size];
    }
    assert reqs[..|reqs|] == reqs;
    MaxAlignmentPositive(reqs);
    r := Ok((bits, alignment, fullSizes));
  }

  /** The second loop of `allocate_vk_buffers`: pads each size and pushes the running
      total as its offset. */
  method PadAndLayOut(fullSizes: seq<nat>, alignment: nat) returns (offsets: seq<nat>, totalSize: nat)
    requires fullSizes == [] || alignment > 0
    ensures (offsets, totalSize) == Layout(fullSizes, alignment)
  {
    totalSize := 0;
    offsets := [];
    for k := 0 to |fullSizes|
      invariant (offsets, totalSize) == Layout(fullSizes[..k], alignment)
    {
      var size := fullSizes[k] + alignment - fullSizes[k] % alignment;
      offsets := offsets + [totalSize];
      totalSize := totalSize + size;
      assert fullSizes[..k + 1][..k] == fullSizes[..k];
    }
    assert fullSizes[..|fullSizes|] == fullSizes;
  }

  /** `find_memory_type`: scans all `MAX_MEMORY_TYPES` entries and returns the first whose
      filter bit is set and whose flags contain the required ones. */
  method FindMemoryType(filter: Flags, required: Flags, props: MemoryProperties) returns (r: Option<nat>)
    requires |props.memoryTypes| == MAX_MEMORY_TYPES
    ensures r == MemoryTypeFor(filter, required, props)
  {
    var i := 0;
    while i < MAX_MEMORY_TYPES
      invariant i <= MAX_MEMORY_TYPES
      invariant MemoryTypeFor(filter, required, props) == FirstSuitable(filter, required, props, i)
    {
      if i in filter && ContainsFlags(props.memoryTypes[i], required) {
        return Some(i);
      }
      i := i + 1;
    }
    return None;
  }

  /** The decisions of `allocate_vk_buffers` before any driver call: layout, then memory
      type. */
  method ComputePlan(reqs: seq<MemoryRequirements>, props: MemoryProperties, required: Flags)
    returns (r: Result<Plan, AllocError>)
    requires |props.memoryTypes| == MAX_MEMORY_TYPES
    ensures r == PlanAllocation(reqs, props, required)
  {
    var lay := ComputeLayout(reqs);
    if lay.Err? {
      return Err(lay.error);
    }
    var memoryType := FindMemoryType(lay.value.filter, required, props);
    if memoryType.None? {
      return Err(NoSuitableMemoryType);
    }
    r := Ok(Plan(memoryType.value, lay.value.size, lay.value.offsets));
  }

  /** `allocate_vk_buffers`: lays the buffers out, picks the memory type, allocates one
      memory of the total size (the driver answers `memory`) and binds each buffer at its
      offset. */
  method AllocateVkBuffers(device: Device, buffers: seq<Handle>, reqs: seq<MemoryRequirements>,
                           props: MemoryProperties, required: Flags, memory: Handle)
    returns (r: Result<Allocation, AllocError>)
    requires |buffers| == |reqs|
    requires |props.memoryTypes| == MAX_MEMORY_TYPES
    modifies device
    ensures PlanAllocation(reqs, props, required).Err? ==>
      r == Err(PlanAllocation(reqs, props, required).error) && device.log == old(device.log)
    ensures PlanAllocation(reqs, props, required).Ok? ==>
      var p := PlanAllocation(reqs, props, required).value;
      && r == Ok(Allocation(memory, p.size, p.offsets))
      && device.log == old(device.log) + AllocationEvents(p, buffers, memory)
  {
    var plan := ComputePlan(reqs, props, required);
    if plan.Err? {
      return Err(plan.error);
    }
    var p := plan.value;
    PlanOffsetsLength(reqs, props, required);
    BindAll(device, buffers, memory, p);
    r := Ok(Allocation(memory, p.size, p.offsets));
  }

  /** The calls of one successful `allocate_vk_buffers`: the allocation, then the binds. */
  function AllocationEvents(p: Plan, buffers: seq<Handle>, memory: Handle): seq<Event>
  {
    [AllocateMemory(p.size, p.memoryType, memory)] + BindEvents(buffers, memory, p.offsets)
  }

  /** The allocation call and the bind loop of `allocate_vk_buffers`. */
  method BindAll(device: Device, buffers: seq<Handle>, memory: Handle, p: Plan)
    requires |p.offsets| == |buffers|
    modifies device
    ensures device.log == old(device.log) + AllocationEvents(p, buffers, memory)
  {
    device.Call(AllocateMemory(p.size, p.memoryType, memory));
    BindLoop(device, buffers, memory, p.offsets);
  }

  /** The bind loop: each buffer bound at its own offset, in order. */
  method BindLoop(device: Device, buffers: seq<Handle>, memory: Handle, offsets: seq<nat>)
    requires |offsets| == |buffers|
    modifies device
    ensures device.log == old(device.log) + BindEvents(buffers, memory, offsets)
  {
    ghost var start := device.log;
    for k := 0 to |buffers|
      invariant |device.log| == |start| + k && device.log[..|start|] == start
      invariant forall i :: 0 <= i < k ==> device.log[|start| + i] == BindBufferMemory(buffers[i], memory, offsets[i])
    {
      device.Call(BindBufferMemory(buffers[k], memory, offsets[k]));
    }
    var binds := BindEvents(buffers, memory, offsets);
    assert device.log == start + binds by {
      forall i | 0 <= i < |device.log|
        ensures device.log[i] == (start + binds)[i]
      {
        if i >= |start| {
          assert device.log[i] == BindBufferMemory(buffers[i - |start|], memory, offsets[i - |start|]);
        } else {
          assert device.log[i] == device.log[..|start|][i];
        }
      }
    }
  }

  lemma PlanOffsetsLength(reqs: seq<MemoryRequirements>, props: MemoryProperties, required: Flags)
    requires |props.memoryTypes| == MAX_MEMORY_TYPES
    requires PlanAllocation(reqs, props, required).Ok?
    ensures |PlanAllocation(reqs, props, required).value.offsets| == |reqs|
  {
    MaxAlignmentPositive(reqs);
    LayoutLength(Sizes(reqs), MaxAlignment(reqs));
  }

  // ---------------------------------------------------------------------------
  // Buffer create infos

  /** `create_buffer_with_sharing_exclusive`: EXCLUSIVE sharing. The source stores the
      family index itself in `queue_family_index_count` and passes no index array. */
  function ExclusiveBufferInfo(size: nat, usage: Flags, family: nat): (r: BufferCreateInfo)
    ensures r.sharingMode == Exclusive && r.queueFamilyIndices == []
    ensures r.size == size && r.usage == usage && r.queueFamilyIndexCount == family
  {
    BufferCreateInfo(size, usage, Exclusive, family, [])
  }

  /** `create_buffer`: asserts a non-zero size, then CONCURRENT sharing over the given
      families. */
  function ConcurrentBufferInfo(size: nat, usage: Flags, families: seq<nat>): (r: Result<BufferCreateInfo, ()>)
    ensures r.Err? <==> size == 0
    ensures r.Ok? ==> r.value == BufferCreateInfo(size, usage, Concurrent, |families|, families)
  {
    if size > 0 then Ok(BufferCreateInfo(size, usage, Concurrent, |families|, families)) else Err(())
  }

  /** One requested travel buffer pair: size, source usage and destination usage. */
  datatype TravelRequest = TravelRequest(size: nat, srcUsage: Flags, dstUsage: Flags)

  /** The create infos of one (source, destination) pair in `create_travel_buffers`. */
  function TravelPairInfos(graphics: nat, transfer: Option<nat>, req: TravelRequest): Result<(BufferCreateInfo, BufferCreateInfo), ()>
  {
    match transfer
    case Some(t) =>
      var families := [graphics, t];
      (match (ConcurrentBufferInfo(req.size, req.srcUsage, families), ConcurrentBufferInfo(req.size, req.dstUsage, families))
       case (Ok(s), Ok(d)) => Ok((s, d))
       case _ => Err(()))
    case None => Ok((ExclusiveBufferInfo(req.size, req.srcUsage, graphics), ExclusiveBufferInfo(req.size, req.dstUsage, graphics)))
  }

  /** `create_travel_buffers`: creates, per request and in order, the source buffer and
      then the destination buffer (the driver answers the handles), and returns
      `(size, src, dst)` per request. The first zero size panics in `create_buffer` when a
      transfer family exists. */
  method CreateTravelBuffers(device: Device, graphics: nat, transfer: Option<nat>,
                             data: seq<TravelRequest>, handles: seq<(Handle, Handle)>)
    returns (r: Result<seq<(nat, Handle, Handle)>, ()>)
    requires |handles| == |data|
    modifies device
    ensures r.Ok? <==> forall i :: 0 <= i < |data| ==> TravelPairInfos(graphics, transfer, data[i]).Ok?
    ensures r.Ok? ==>
      && |r.value| == |data|
      && (forall i :: 0 <= i < |data| ==> r.value[i] == (data[i].size, handles[i].0, handles[i].1))
      && device.log == old(device.log) + TravelEvents(graphics, transfer, data, handles)
  {
    var out: seq<(nat, Handle, Handle)> := [];
    ghost var start := device.log;
    for k := 0 to |data|
      invariant forall i :: 0 <= i < k ==> TravelPairInfos(graphics, transfer, data[i]).Ok?
      invariant |out| == k
      invariant forall i :: 0 <= i < k ==> out[i] == (data[i].size, handles[i].0, handles[i].1)
      invariant device.log == start + TravelEvents(graphics, transfer, data[..k], handles[..k])
    {
      var infos := TravelPairInfos(graphics, transfer, data[k]);
      if infos.Err? {
        return Err(());
      }
      assert data[..k + 1][..k] == data[..k];
      assert handles[..k + 1][..k] == handles[..k];
      device.Call(CreateBuffer(infos.value.0, handles[k].0));
      device.Call(CreateBuffer(infos.value.1, handles[k].1));
      out := out + [(data[k].size, handles[k].0, handles[k].1)];
    }
    assert data[..|data|] == data;
    assert handles[..|data|] == handles;
    r := Ok(out);
  }

  /** The driver calls of `create_travel_buffers` when no request fails. */
  function TravelEvents(graphics: nat, transfer: Option<nat>, data: seq<TravelRequest>, handles: seq<(Handle, Handle)>): seq<Event>
    requires |handles| == |data|
  {
    if data == [] then []
    else
      var n := |data| - 1;
      var rest := TravelEvents(graphics, transfer, data[..n], handles[..n]);
      match TravelPairInfos(graphics, transfer, data[n])
      case Ok(infos) => rest + [CreateBuffer(infos.0, handles[n].0), CreateBuffer(infos.1, handles[n].1)]
      case Err(_) => rest
  }

  // ---------------------------------------------------------------------------
  // Properties

  lemma {:induction false} MaxAlignmentBounds(reqs: seq<MemoryRequirements>)
    ensures forall i :: 0 <= i < |reqs| ==> reqs[i].alignment <= MaxAlignment(reqs)
    ensures reqs != [] ==> exists i :: 0 <= i < |reqs| && MaxAlignment(reqs) == reqs[i].alignment
  {
    if reqs != [] {
      var n := |reqs| - 1;
      var init := reqs[..n];
      MaxAlignmentBounds(init);
      assert forall i :: 0 <= i < n ==> reqs[i] == init[i];
      if init == [] {
        assert MaxAlignment(reqs) == reqs[n].alignment;
      } else if MaxAlignment(reqs) != reqs[n].alignment {
        var j :| 0 <= j < |init| && MaxAlignment(init) == init[j].alignment;
        assert MaxAlignment(reqs) == reqs[j].alignment;
      }
    }
  }

  lemma MaxAlignmentPositive(reqs: seq<MemoryRequirements>)
    requires forall i :: 0 <= i < |reqs| ==> IsPowerOfTwo(reqs[i].alignment)
    ensures reqs == [] || MaxAlignment(reqs) > 0
    ensures reqs != [] ==> IsPowerOfTwo(MaxAlignment(reqs))
  {
    MaxAlignmentBounds(reqs);
  }

  // Euclidean division facts used below.

  lemma {:induction false} MulAtLeast(a: int, d: int)
    requires a > 0 && d >= 1
    ensures a * d >= a
  {
    if d > 1 {
      MulAtLeast(a, d - 1);
      assert a * d == a * (d - 1) + a;
    }
  }

  lemma DivModUnique(x: int, a: int, q: int, r: int)
    requires a > 0 && 0 <= r < a && x == a * q + r
    ensures x % a == r && x / a == q
  {
    var q0, r0 := x / a, x % a;
    assert x == a * q0 + r0;
    if q0 > q {
      MulAtLeast(a, q0 - q);
    } else if q0 < q {
      MulAtLeast(a, q - q0);
    }
  }

  lemma ModAdd(x: nat, y: nat, a: nat)
    requires a > 0 && x % a == 0 && y % a == 0
    ensures (x + y) % a == 0
  {
    var qx, qy := x / a, y / a;
    assert x == a * qx;
    assert y == a * qy;
    assert x + y == a * (qx + qy);
    DivModUnique(x + y, a, qx + qy, 0);
  }

  lemma {:induction false} PowerOfTwoDivides(p: nat, q: nat)
    requires IsPowerOfTwo(p) && IsPowerOfTwo(q) && p <= q
    ensures q % p == 0
  {
    if p == 1 {
      DivModUnique(q, 1, q, 0);
    } else {
      assert q != 1;
      var p2, q2 := p / 2, q / 2;
      PowerOfTwoDivides(p2, q2);
      var m := q2 / p2;
      assert q2 == p2 * m + q2 % p2;
      assert q == 2 * q2 && p == 2 * p2;
      assert q == p * m;
      DivModUnique(q, p, m, 0);
    }
  }

  /** The alignment used is the largest reported one, and when every reported alignment
      is a power of two it is a multiple of each of them, so every buffer's own
      alignment requirement holds at every offset the layout hands out. */
  lemma AlignmentCoversAll(reqs: seq<MemoryRequirements>)
    requires LayoutOf(reqs).Ok?
    ensures forall i :: 0 <= i < |reqs| ==> reqs[i].alignment <= LayoutOf(reqs).value.alignment
    ensures forall i :: 0 <= i < |reqs| ==> LayoutOf(reqs).value.alignment % reqs[i].alignment == 0
  {
    MaxAlignmentBounds(reqs);
    MaxAlignmentPositive(reqs);
    forall i | 0 <= i < |reqs|
      ensures LayoutOf(reqs).value.alignment % reqs[i].alignment == 0
    {
      PowerOfTwoDivides(reqs[i].alignment, MaxAlignment(reqs));
    }
  }

  /** A layout fails exactly when some reported alignment is not a power of two. */
  lemma LayoutFailsIffBadAlignment(reqs: seq<MemoryRequirements>)
    ensures LayoutOf(reqs).Err? <==> exists i :: 0 <= i < |reqs| && !IsPowerOfTwo(reqs[i].alignment)
  {
  }

  /** A padded size is a multiple of the alignment and strictly larger than the size (by
      at most one alignment; an already aligned size still gets a whole extra one). */
  lemma PaddedSizeProperties(size: nat, a: nat)
    requires a > 0
    ensures PaddedSize(size, a) % a == 0
    ensures size < PaddedSize(size, a) <= size + a
    ensures size % a == 0 ==> PaddedSize(size, a) == size + a
  {
    var q, r := size / a, size % a;
    assert size == a * q + r;
    assert PaddedSize(size, a) == a * (q + 1);
    DivModUnique(PaddedSize(size, a), a, q + 1, 0);
  }

  lemma {:induction false} LayoutLength(sizes: seq<nat>, a: nat)
    requires sizes == [] || a > 0
    ensures |Layout(sizes, a).0| == |sizes|
  {
    if sizes != [] {
      LayoutLength(sizes[..|sizes| - 1], a);
    }
  }

  /** The layout of a prefix is a prefix of the layout. */
  lemma {:induction false} LayoutPrefix(sizes: seq<nat>, a: nat, n: nat)
    requires sizes == [] || a > 0
    requires n <= |sizes|
    ensures |Layout(sizes, a).0| == |sizes|
    ensures Layout(sizes[..n], a).0 == Layout(sizes, a).0[..n]
  {
    LayoutLength(sizes, a);
    if n < |sizes| {
      var init := sizes[..|sizes| - 1];
      assert sizes[..n] == init[..n];
      LayoutPrefix(init, a, n);
    } else {
      assert sizes[..n] == sizes;
    }
  }

  /** Offsets are a running sum: the first is 0, each next one adds the previous padded
      size, and the total is the last offset plus the last padded size. */
  lemma LayoutRunningSum(sizes: seq<nat>, a: nat, i: nat)
    requires a > 0 && i < |sizes|
    ensures |Layout(sizes, a).0| == |sizes|
    ensures i == 0 ==> Layout(sizes, a).0[0] == 0
    ensures i + 1 < |sizes| ==> Layout(sizes, a).0[i + 1] == Layout(sizes, a).0[i] + PaddedSize(sizes[i], a)
    ensures i + 1 == |sizes| ==> Layout(sizes, a).1 == Layout(sizes, a).0[i] + PaddedSize(sizes[i], a)
  {
    LayoutPrefix(sizes, a, i + 1);
    var pre := sizes[..i + 1];
    assert pre[..i] == sizes[..i];
    LayoutLength(sizes[..i], a);
    assert Layout(pre, a).0[i] == Layout(sizes[..i], a).1;
    if i == 0 {
      assert sizes[..0] == [];
    }
    if i + 1 < |sizes| {
      LayoutPrefix(sizes, a, i + 2);
      var pre2 := sizes[..i + 2];
      assert pre2[..i + 1] == pre;
      assert Layout(sizes, a).0[i + 1] == Layout(pre, a).1;
    } else {
      assert pre == sizes;
    }
  }

  /** Every offset and the total size are multiples of the alignment. */
  lemma {:induction false} LayoutAligned(sizes: seq<nat>, a: nat)
    requires a > 0
    ensures |Layout(sizes, a).0| == |sizes|
    ensures forall i :: 0 <= i < |sizes| ==> Layout(sizes, a).0[i] % a == 0
    ensures Layout(sizes, a).1 % a == 0
  {
    LayoutLength(sizes, a);
    if sizes != [] {
      var init := sizes[..|sizes| - 1];
      LayoutAligned(init, a);
      PaddedSizeProperties(sizes[|sizes| - 1], a);
      ModAdd(Layout(init, a).1, PaddedSize(sizes[|sizes| - 1], a), a);
    }
  }

  /** Buffers do not overlap: each buffer ends strictly before every later buffer starts,
      and before the end of the allocation. */
  lemma {:induction false} LayoutDisjoint(sizes: seq<nat>, a: nat)
    requires a > 0
    ensures |Layout(sizes, a).0| == |sizes|
    ensures forall i, j :: 0 <= i < j < |sizes| ==> Layout(sizes, a).0[i] + sizes[i] < Layout(sizes, a).0[j]
    ensures forall i :: 0 <= i < |sizes| ==> Layout(sizes, a).0[i] + sizes[i] < Layout(sizes, a).1
  {
    LayoutLength(sizes, a);
    if sizes != [] {
      var n := |sizes| - 1;
      var init := sizes[..n];
      LayoutDisjoint(init, a);
      PaddedSizeProperties(sizes[n], a);
      var offs := Layout(sizes, a).0;
      assert forall i :: 0 <= i < n ==> offs[i] == Layout(init, a).0[i] && sizes[i] == init[i];
    }
  }

  /** The sum of the padded sizes, front to back. */
  function SumPadded(sizes: seq<nat>, a: nat): nat
    requires a > 0
  {
    if sizes == [] then 0 else PaddedSize(sizes[0], a) + SumPadded(sizes[1..], a)
  }

  lemma {:induction false} SumPaddedSnoc(sizes: seq<nat>, x: nat, a: nat)
    requires a > 0
    ensures SumPadded(sizes + [x], a) == SumPadded(sizes, a) + PaddedSize(x, a)
  {
    if sizes == [] {
      assert ([] + [x])[1..] == [];
    } else {
      assert (sizes + [x])[1..] == sizes[1..] + [x];
      SumPaddedSnoc(sizes[1..], x, a);
    }
  }

  /** The total size is the sum of the padded sizes. */
  lemma {:induction false} LayoutTotal(sizes: seq<nat>, a: nat)
    requires a > 0
    ensures Layout(sizes, a).1 == SumPadded(sizes, a)
  {
    if sizes != [] {
      var n := |sizes| - 1;
      LayoutTotal(sizes[..n], a);
      SumPaddedSnoc(sizes[..n], sizes[n], a);
      assert sizes[..n] + [sizes[n]] == sizes;
    }
  }

  /** Memory type t passes the type filter iff at least one buffer accepts it. */
  lemma {:induction false} TypeFilterIsUnion(reqs: seq<MemoryRequirements>, t: nat)
    ensures t in TypeFilter(reqs) <==> exists i :: 0 <= i < |reqs| && t in reqs[i].memoryTypeBits
  {
    if reqs != [] {
      var n := |reqs| - 1;
      var init := reqs[..n];
      TypeFilterIsUnion(init, t);
      assert forall i :: 0 <= i < n ==> reqs[i] == init[i];
    }
  }

  /** `find_memory_type` returns the lowest suitable index, and fails only when no index
      below `MAX_MEMORY_TYPES` is suitable. */
  lemma MemoryTypeForIsLowest(filter: Flags, required: Flags, props: MemoryProperties)
    requires |props.memoryTypes| == MAX_MEMORY_TYPES
    ensures match MemoryTypeFor(filter, required, props)
      case Some(t) =>
        && t < MAX_MEMORY_TYPES && Suitable(filter, required, props, t)
        && forall j :: 0 <= j < t ==> !Suitable(filter, required, props, j)
      case None => forall j :: 0 <= j < MAX_MEMORY_TYPES ==> !Suitable(filter, required, props, j)
  {
    FirstSuitableSpec(filter, required, props, 0);
  }

  lemma {:induction false} FirstSuitableSpec(filter: Flags, required: Flags, props: MemoryProperties, from: nat)
    requires |props.memoryTypes| == MAX_MEMORY_TYPES && from <= MAX_MEMORY_TYPES
    decreases MAX_MEMORY_TYPES - from
    ensures match FirstSuitable(filter, required, props, from)
      case Some(t) =>
        && from <= t < MAX_MEMORY_TYPES && Suitable(filter, required, props, t)
        && forall j :: from <= j < t ==> !Suitable(filter, required, props, j)
      case None => forall j :: from <= j < MAX_MEMORY_TYPES ==> !Suitable(filter, required, props, j)
  {
    if from < MAX_MEMORY_TYPES && !Suitable(filter, required, props, from) {
      FirstSuitableSpec(filter, required, props, from + 1);
    }
  }

  /** Because the filter is an OR, the memory type chosen for a group can be one that a
      buffer of the group does not accept: here buffer 1 accepts only type 1, but type 0,
      accepted by buffer 0, is picked. */
  lemma OrFilterCanRejectABuffer()
    ensures var reqs := [MemoryRequirements(16, 4, {0}), MemoryRequirements(16, 4, {1})];
            var props := MemoryProperties(seq(MAX_MEMORY_TYPES, _ => HOST_MEMORY_PROPERTY_FLAGS));
            && PlanAllocation(reqs, props, HOST_MEMORY_PROPERTY_FLAGS).Ok?
            && PlanAllocation(reqs, props, HOST_MEMORY_PROPERTY_FLAGS).value.memoryType == 0
            && 0 !in reqs[1].memoryTypeBits
  {
    var reqs := [MemoryRequirements(16, 4, {0}), MemoryRequirements(16, 4, {1})];
    var props := MemoryProperties(seq(MAX_MEMORY_TYPES, _ => HOST_MEMORY_PROPERTY_FLAGS));
    assert IsPowerOfTwo(4) by { assert IsPowerOfTwo(2); }
    assert reqs[..1] == [reqs[0]];
    assert [reqs[0]][..0] == [];
    assert TypeFilter(reqs) == {0, 1};
    assert Suitable({0, 1}, HOST_MEMORY_PROPERTY_FLAGS, props, 0);
  }

  /** When the allocation plan succeeds it names a suitable memory type accepted by at
      least one buffer of the group, and returns one offset per buffer. */
  lemma PlanProperties(reqs: seq<MemoryRequirements>, props: MemoryProperties, required: Flags)
    requires |props.memoryTypes| == MAX_MEMORY_TYPES
    requires PlanAllocation(reqs, props, required).Ok?
    ensures var p := PlanAllocation(reqs, props, required).value;
            && p.memoryType < MAX_MEMORY_TYPES
            && ContainsFlags(props.memoryTypes[p.memoryType], required)
            && (exists i :: 0 <= i < |reqs| && p.memoryType in reqs[i].memoryTypeBits)
            && |p.offsets| == |reqs|
  {
    var lay := LayoutOf(reqs).value;
    var t := PlanAllocation(reqs, props, required).value.memoryType;
    assert MemoryTypeFor(lay.filter, required, props) == Some(t);
    MemoryTypeForIsLowest(lay.filter, required, props);
    assert Suitable(TypeFilter(reqs), required, props, t);
    TypeFilterIsUnion(reqs, t);
    PlanOffsetsLength(reqs, props, required);
  }
}
