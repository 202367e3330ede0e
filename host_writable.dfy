/** The host-writable tier: one host-visible allocation holding one instance buffer per
    frame slot, which the CPU rewrites every frame
    (src/render/objects/buffers/host_writable.rs). */
module HostWritable {
  import opened Wrappers
  import opened Vk
  import opened Scalars
  import opened Buffers
  import Instance

  /** The bytes of one slot buffer: `size_of::<MatrixInstance>() * max_instances`. */
  function SlotSize(maxInstances: nat): nat
  {
    Instance.SIZE * maxInstances
  }

  /** `mem` with `bytes` written at `off`. */
  function WriteAt(mem: seq<Byte>, off: nat, bytes: seq<Byte>): (r: seq<Byte>)
    requires off + |bytes| <= |mem|
    ensures |r| == |mem|
  {
    mem[..off] + bytes + mem[off + |bytes|..]
  }

  /** The slot regions lie inside the allocation and do not overlap. */
  predicate SlotsDisjoint(offsets: seq<nat>, slotSize: nat, memorySize: nat)
  {
    && (forall i :: 0 <= i < |offsets| ==> offsets[i] + slotSize <= memorySize)
    && (forall i, j :: 0 <= i < |offsets| && 0 <= j < |offsets| && i != j ==>
          offsets[i] + slotSize <= offsets[j] || offsets[j] + slotSize <= offsets[i])
  }

  function Offsets(slots: seq<(Handle, nat)>): (r: seq<nat>)
    ensures |r| == |slots| && forall i :: 0 <= i < |slots| ==> r[i] == slots[i].1
  {
    if slots == [] then [] else Offsets(slots[..|slots| - 1]) + [slots[|slots| - 1].1]
  }

  function SlotBuffers(slots: seq<(Handle, nat)>): (r: seq<Handle>)
    ensures |r| == |slots| && forall i :: 0 <= i < |slots| ==> r[i] == slots[i].0
  {
    if slots == [] then [] else SlotBuffers(slots[..|slots| - 1]) + [slots[|slots| - 1].0]
  }

  /** The create calls of `new`: `FRAMES_IN_FLIGHT` storage-source buffers, exclusive to
      the compute family. */
  function CreateEvents(buffers: seq<Handle>, size: nat, compute: nat): (r: seq<Event>)
    ensures |r| == |buffers|
    ensures forall i :: 0 <= i < |buffers| ==>
      r[i] == CreateBuffer(ExclusiveBufferInfo(size, STORAGE_SRC_USAGE, compute), buffers[i])
  {
    if buffers == [] then []
    else CreateEvents(buffers[..|buffers| - 1], size, compute)
         + [CreateBuffer(ExclusiveBufferInfo(size, STORAGE_SRC_USAGE, compute), buffers[|buffers| - 1])]
  }

  lemma CreateEventsExtend(buffers: seq<Handle>, size: nat, compute: nat, k: nat)
    requires k < |buffers|
    ensures CreateEvents(buffers[..k + 1], size, compute)
         == CreateEvents(buffers[..k], size, compute) + [CreateBuffer(ExclusiveBufferInfo(size, STORAGE_SRC_USAGE, compute), buffers[k])]
  {
    assert buffers[..k + 1][..k] == buffers[..k];
  }

  /** The create loop of `new`: one slot buffer per frame in flight. */
  method CreateSlotBuffers(device: Device, buffers: seq<Handle>, size: nat, compute: nat)
    modifies device
    ensures device.log == old(device.log) + CreateEvents(buffers, size, compute)
  {
    ghost var start := device.log;
    for k := 0 to |buffers|
      invariant device.log == start + CreateEvents(buffers[..k], size, compute)
    {
      device.Call(CreateBuffer(ExclusiveBufferInfo(size, STORAGE_SRC_USAGE, compute), buffers[k]));
      CreateEventsExtend(buffers, size, compute, k);
    }
    assert buffers[..|buffers|] == buffers;
  }

  class HostWritableMemory {
    const memory: Handle
    /** `instance: [(vk::Buffer, u64); FRAMES_IN_FLIGHT]`: each slot's buffer and its
        offset in `memory`. */
    const instance: seq<(Handle, nat)>
    const maxInstances: nat
    /** The bytes of the host-visible allocation, as mapped by `write_instance`. */
    const mapped: array<Byte>

    ghost predicate Valid()
      reads this
    {
      && |instance| == FRAMES_IN_FLIGHT
      && SlotsDisjoint(Offsets(instance), SlotSize(maxInstances), mapped.Length)
    }

    constructor (memory: Handle, instance: seq<(Handle, nat)>, maxInstances: nat, memorySize: nat)
      ensures this.memory == memory && this.instance == instance && this.maxInstances == maxInstances
      ensures fresh(mapped) && mapped.Length == memorySize
    {
      this.memory := memory;
      this.instance := instance;
      this.maxInstances := maxInstances;
      this.mapped := new Byte[memorySize](_ => 0);
    }

    /** `HostWritableMemory::new`: creates the slot buffers (the driver answers
        `buffers`, `reqs` and `memory`), allocates them together in host-visible memory
        and pairs buffer i with offset i. Each reported size is at least the requested one,
        as the Vulkan specification guarantees. */
    static method Create(device: Device, props: MemoryProperties, compute: nat, maxInstances: nat,
                         buffers: seq<Handle>, reqs: seq<MemoryRequirements>, memory: Handle)
      returns (r: Result<HostWritableMemory, AllocError>)
      requires |buffers| == |reqs| == FRAMES_IN_FLIGHT
      requires |props.memoryTypes| == MAX_MEMORY_TYPES
      requires forall i :: 0 <= i < |reqs| ==> reqs[i].size >= SlotSize(maxInstances)
      modifies device
      ensures r.Ok? <==> PlanAllocation(reqs, props, HOST_MEMORY_PROPERTY_FLAGS).Ok?
      ensures r.Err? ==>
        device.log == old(device.log) + CreateEvents(buffers, SlotSize(maxInstances), compute)
      ensures r.Ok? ==>
        var p := PlanAllocation(reqs, props, HOST_MEMORY_PROPERTY_FLAGS).value;
        && |p.offsets| == FRAMES_IN_FLIGHT
        && fresh(r.value) && fresh(r.value.mapped) && r.value.Valid()
        && r.value.memory == memory && r.value.maxInstances == maxInstances
        && r.value.mapped.Length == p.size
        && r.value.instance == [(buffers[0], p.offsets[0]), (buffers[1], p.offsets[1])]
        && device.log == old(device.log) + CreateEvents(buffers, SlotSize(maxInstances), compute)
                         + AllocationEvents(p, buffers, memory)
    {
      CreateSlotBuffers(device, buffers, SlotSize(maxInstances), compute);
      r := AllocateSlots(device, props, maxInstances, buffers, reqs, memory);
    }

    /** The allocation half of `new`: one host-visible allocation for the slot buffers,
        buffer i paired with offset i. */
    static method AllocateSlots(device: Device, props: MemoryProperties, maxInstances: nat,
                                buffers: seq<Handle>, reqs: seq<MemoryRequirements>, memory: Handle)
      returns (r: Result<HostWritableMemory, AllocError>)
      requires |buffers| == |reqs| == FRAMES_IN_FLIGHT
      requires |props.memoryTypes| == MAX_MEMORY_TYPES
      requires forall i :: 0 <= i < |reqs| ==> reqs[i].size >= SlotSize(maxInstances)
      modifies device
      ensures r.Ok? <==> PlanAllocation(reqs, props, HOST_MEMORY_PROPERTY_FLAGS).Ok?
      ensures r.Err? ==> device.log == old(device.log)
      ensures r.Ok? ==>
        var p := PlanAllocation(reqs, props, HOST_MEMORY_PROPERTY_FLAGS).value;
        && |p.offsets| == FRAMES_IN_FLIGHT
        && fresh(r.value) && fresh(r.value.mapped) && r.value.Valid()
        && r.value.memory == memory && r.value.maxInstances == maxInstances
        && r.value.mapped.Length == p.size
        && r.value.instance == [(buffers[0], p.offsets[0]), (buffers[1], p.offsets[1])]
        && device.log == old(device.log) + AllocationEvents(p, buffers, memory)
    {
      var allocation := AllocateVkBuffers(device, buffers, reqs, props, HOST_MEMORY_PROPERTY_FLAGS, memory);
      if allocation.Err? {
        return Err(allocation.error);
      }
      PlanOffsetsLength(reqs, props, HOST_MEMORY_PROPERTY_FLAGS);
      var offsets := allocation.value.offsets;
      var slots := [(buffers[0], offsets[0]), (buffers[1], offsets[1])];
      var h := new HostWritableMemory(allocation.value.memory, slots, maxInstances, allocation.value.size);
      SlotLayout(reqs, maxInstances);
      assert Offsets(slots) == offsets;
      r := Ok(h);
    }

    /** `write_instance(i, data)`: copies the records of `data` into the mapped memory at
        slot i's offset and changes no other byte. The source does not compare
        `data.len()` with `max_instances`; staying inside slot i needs that bound. */
    method WriteInstance(i: nat, data: seq<Instance.MatrixInstance>)
      requires Valid() && i < |instance|
      requires |data| <= maxInstances
      modifies mapped
      ensures instance[i].1 + |Instance.EncodeAll(data)| <= mapped.Length
      ensures mapped[..] == WriteAt(old(mapped[..]), instance[i].1, Instance.EncodeAll(data))
    {
      var off := instance[i].1;
      var bytes := Instance.EncodeAll(data);
      assert off + SlotSize(maxInstances) <= mapped.Length by {
        assert Offsets(instance)[i] == off;
      }
      assert |bytes| <= SlotSize(maxInstances);
      for k := 0 to |bytes|
        invariant forall j :: 0 <= j < mapped.Length ==>
          mapped[j] == if off <= j < off + k then bytes[j - off] else old(mapped[j])
      {
        mapped[off + k] := bytes[k];
      }
      assert mapped[..] == WriteAt(old(mapped[..]), off, bytes);
    }

    /** `instance(i)`: slot i's buffer. */
    function InstanceBuffer(i: nat): Handle
      requires i < |instance|
      reads this
    {
      instance[i].0
    }

    /** `destroy_self`: destroys every slot buffer, then frees the memory once. */
    method DestroySelf(device: Device)
      modifies device
      ensures device.log == old(device.log) + DestroyBufferEvents(SlotBuffers(instance)) + [FreeMemory(memory)]
    {
      var buffers := SlotBuffers(instance);
      ghost var start := device.log;
      for k := 0 to |buffers|
        invariant device.log == start + DestroyBufferEvents(buffers[..k])
      {
        device.Call(DestroyBuffer(instance[k].0));
        assert buffers[..k + 1][..k] == buffers[..k];
      }
      assert buffers[..|buffers|] == buffers;
      device.Call(FreeMemory(memory));
    }
  }

  // ---------------------------------------------------------------------------
  // Properties

  /** The allocator's layout gives each slot a region of the full slot size that lies
      inside the allocation and overlaps no other slot. */
  lemma SlotLayout(reqs: seq<MemoryRequirements>, maxInstances: nat)
    requires LayoutOf(reqs).Ok?
    requires forall i :: 0 <= i < |reqs| ==> reqs[i].size >= SlotSize(maxInstances)
    ensures SlotsDisjoint(LayoutOf(reqs).value.offsets, SlotSize(maxInstances), LayoutOf(reqs).value.size)
  {
    var lay := LayoutOf(reqs).value;
    var sizes := Sizes(reqs);
    if reqs != [] {
      MaxAlignmentPositive(reqs);
      LayoutDisjoint(sizes, lay.alignment);
    } else {
      LayoutLength(sizes, lay.alignment);
    }
  }

  /** Reading back the slot written by `write_instance` gives the records written. */
  lemma WriteThenRead(mem: seq<Byte>, off: nat, data: seq<Instance.MatrixInstance>)
    requires off + |Instance.EncodeAll(data)| <= |mem|
    ensures var n := |Instance.EncodeAll(data)|;
            Instance.DecodeAll(WriteAt(mem, off, Instance.EncodeAll(data))[off..off + n]) == data
  {
    var bytes := Instance.EncodeAll(data);
    assert WriteAt(mem, off, bytes)[off..off + |bytes|] == bytes;
    Instance.EncodeAllRoundTrip(data);
  }

  /** A write to one slot leaves every byte outside that slot's written range unchanged,
      in particular every byte of every other slot. */
  lemma WriteKeepsOtherSlots(mem: seq<Byte>, offsets: seq<nat>, slotSize: nat, i: nat, bytes: seq<Byte>)
    requires SlotsDisjoint(offsets, slotSize, |mem|)
    requires i < |offsets| && |bytes| <= slotSize
    ensures forall j :: 0 <= j < |mem| && !(offsets[i] <= j < offsets[i] + |bytes|) ==>
      WriteAt(mem, offsets[i], bytes)[j] == mem[j]
    ensures forall s, j :: 0 <= s < |offsets| && s != i && offsets[s] <= j < offsets[s] + slotSize ==>
      WriteAt(mem, offsets[i], bytes)[j] == mem[j]
  {
  }
}
