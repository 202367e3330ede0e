/** The constant tier: model vertices, model indices and static instance data, staged
    through host-visible memory and copied once into device-local buffers
    (src/render/objects/buffers/local_constant.rs). */
module LocalConstant {
  import opened Wrappers
  import opened Scalars
  import opened Vk
  import opened Buffers
  import opened Linear2dVec
  import Color
  import Instance
  import Models
  import StaticScene

  /** `DrawProperties`: the arguments of one indexed, instanced draw. */
  datatype DrawProperties = DrawProperties(
    indexCount: nat,
    instanceCount: nat,
    firstIndex: nat,
    vertexOffset: int,
    firstInstance: nat)

  /** `LocalConstantMemory`: the device-local allocation, its three buffers with their
      offsets, and one draw per static object group. */
  datatype LocalConstantMemory = LocalConstantMemory(
    memory: Handle,
    vertex: Handle,
    vertexOffset: nat,
    index: Handle,
    indexOffset: nat,
    instance: Handle,
    instanceOffset: nat,
    drawProps: seq<DrawProperties>)

  /** Why construction stops: `create_buffer` rejects a zero size, the allocator rejects
      the requirements, the two allocations differ in size, or a model index is out of
      range. All of these are panics in the source. */
  datatype ConstantError =
    | ZeroSizedBuffer
    | AllocationFailed(error: AllocError)
    | SizeMismatch
    | ModelIndexOutOfRange

  // ---------------------------------------------------------------------------
  // Sizes, draws and copy operations

  /** The three byte sizes: vertices, `u16` indices and static instances. */
  function BufferSizes(models: Models.Models, scene: StaticScene.StaticScene): (r: seq<nat>)
    ensures |r| == 3
    ensures r[0] == Color.STRIDE * Len(models.vertices)
    ensures r[1] == 2 * Len(models.indices)
    ensures r[2] == Instance.SIZE * scene.totalObjCount
  {
    [Color.STRIDE * Len(models.vertices), 2 * Len(models.indices), Instance.SIZE * scene.totalObjCount]
  }

  /** The three travel requests, with their source and destination usages. The vertex and
      index source usages are not defined in the snapshot; both are taken as transfer
      sources, like the storage source usage. */
  function TravelRequests(sizes: seq<nat>): (r: seq<TravelRequest>)
    requires |sizes| == 3
    ensures |r| == 3 && forall i :: 0 <= i < 3 ==> r[i].size == sizes[i]
    ensures r[0].dstUsage == VERTEX_DST_USAGE && r[1].dstUsage == INDEX_DST_USAGE && r[2].dstUsage == STORAGE_USAGE
  {
    [TravelRequest(sizes[0], BUFFER_USAGE_TRANSFER_SRC, VERTEX_DST_USAGE),
     TravelRequest(sizes[1], BUFFER_USAGE_TRANSFER_SRC, INDEX_DST_USAGE),
     TravelRequest(sizes[2], STORAGE_SRC_USAGE, STORAGE_USAGE)]
  }

  /** Every staging buffer may be a copy source and every destination a copy target. */
  lemma TravelRequestsCanCopy(sizes: seq<nat>)
    requires |sizes| == 3
    ensures forall i :: 0 <= i < 3 ==>
      && BUFFER_USAGE_TRANSFER_SRC <= TravelRequests(sizes)[i].srcUsage
      && BUFFER_USAGE_TRANSFER_DST <= TravelRequests(sizes)[i].dstUsage
  {
  }

  /** The draw of one (model index, instance partition) pair, or `None` when the model
      index is out of range (a panic in the source). */
  function DrawOf(models: Models.Models, modelIndex: nat, part: Partition): Option<DrawProperties>
  {
    if modelIndex < |models.indices.parts| && modelIndex < |models.vertices.parts| then
      var ip := models.indices.parts[modelIndex];
      var vp := models.vertices.parts[modelIndex];
      Some(DrawProperties(AsU32(ip.size), AsU32(part.size), AsU32(ip.offset), AsI32(vp.offset), AsU32(part.offset)))
    else None
  }

  /** `draw_props`: the zip of the model indices with the instance partitions. Index count,
      first index and vertex offset come from the model, instance count and first instance
      from the partition. */
  function DrawProps(models: Models.Models, modelIndices: seq<nat>, instParts: seq<Partition>): (r: Option<seq<DrawProperties>>)
    ensures var n := if |modelIndices| <= |instParts| then |modelIndices| else |instParts|;
      && (r.Some? <==> forall k :: 0 <= k < n ==>
            modelIndices[k] < |models.indices.parts| && modelIndices[k] < |models.vertices.parts|)
      && (r.Some? ==> |r.value| == n && forall k :: 0 <= k < n ==>
            var ip := models.indices.parts[modelIndices[k]];
            var vp := models.vertices.parts[modelIndices[k]];
            r.value[k] == DrawProperties(AsU32(ip.size), AsU32(instParts[k].size), AsU32(ip.offset),
                                         AsI32(vp.offset), AsU32(instParts[k].offset)))
  {
    var n := if |modelIndices| <= |instParts| then |modelIndices| else |instParts|;
    ZipDraws(models, modelIndices[..n], instParts[..n])
  }

  /** The map over the zipped pairs, once both lists have the zip's length. */
  function ZipDraws(models: Models.Models, modelIndices: seq<nat>, instParts: seq<Partition>): (r: Option<seq<DrawProperties>>)
    requires |modelIndices| == |instParts|
    ensures r.Some? <==> forall k :: 0 <= k < |modelIndices| ==> DrawOf(models, modelIndices[k], instParts[k]).Some?
    ensures r.Some? ==> |r.value| == |modelIndices|
    ensures r.Some? ==>
      forall k :: 0 <= k < |modelIndices| ==> Some(r.value[k]) == DrawOf(models, modelIndices[k], instParts[k])
  {
    if modelIndices == [] then Some([])
    else
      var n := |modelIndices| - 1;
      match (ZipDraws(models, modelIndices[..n], instParts[..n]), DrawOf(models, modelIndices[n], instParts[n]))
      case (Some(rest), Some(d)) => Some(rest + [d])
      case _ => None
  }

  /** The copy operations: per (source, destination) pair, one region of the source's
      size from offset 0 to offset 0. */
  function CopyOperations(srcs: seq<(nat, Handle)>, dsts: seq<(nat, Handle)>): (r: seq<CopyBufferOperation>)
    ensures |r| == if |srcs| <= |dsts| then |srcs| else |dsts|
    ensures forall k :: 0 <= k < |r| ==>
      r[k] == CopyBufferOperation(srcs[k].1, dsts[k].1, [BufferCopy(0, 0, srcs[k].0)])
  {
    var n := if |srcs| <= |dsts| then |srcs| else |dsts|;
    seq(n, k requires 0 <= k < n => CopyBufferOperation(srcs[k].1, dsts[k].1, [BufferCopy(0, 0, srcs[k].0)]))
  }

  /** The copy goes to the transfer queue when the device has one, else to graphics. */
  function CopyQueue(hasTransferQueue: bool): (r: Queue)
    ensures r == TransferQueue <==> hasTransferQueue
    ensures r == GraphicsQueue <==> !hasTransferQueue
  {
    if hasTransferQueue then TransferQueue else GraphicsQueue
  }

  /** The calls made once both allocations succeed and before the staging teardown: the
      three staging writes, recording the copies, the one-shot fence (created
      unsignaled), the submission without semaphores, the wait on the fence and the
      fence's destruction. */
  function SubmitEvents(srcMemory: Handle, srcOffsets: seq<nat>, sizes: seq<nat>,
                        ops: seq<CopyBufferOperation>, fence: Handle, queue: Queue): (r: seq<Event>)
    requires |srcOffsets| == 3 && |sizes| == 3
  {
    [CopyIntoMemory(srcMemory, srcOffsets[0], sizes[0]),
     CopyIntoMemory(srcMemory, srcOffsets[1], sizes[1]),
     CopyIntoMemory(srcMemory, srcOffsets[2], sizes[2]),
     RecordCopyBuffers(ops),
     CreateFence(fence, false),
     QueueSubmit(queue, [], CopyCommandBuffer, [], fence),
     WaitForFence(fence),
     DestroyFence(fence)]
  }

  /** The staging teardown: every staging buffer, then the staging memory. */
  function TeardownEvents(srcBuffers: seq<Handle>, srcMemory: Handle): seq<Event>
  {
    DestroyBufferEvents(srcBuffers) + [FreeMemory(srcMemory)]
  }

  // ---------------------------------------------------------------------------
  // Construction

  /** `src_buffers` and `dst_buffers`: `(size, buffer)` per travel pair. */
  function Sources(t: seq<(nat, Handle, Handle)>): (r: seq<(nat, Handle)>)
    ensures |r| == |t| && forall i :: 0 <= i < |t| ==> r[i] == (t[i].0, t[i].1)
  {
    seq(|t|, i requires 0 <= i < |t| => (t[i].0, t[i].1))
  }

  function Destinations(t: seq<(nat, Handle, Handle)>): (r: seq<(nat, Handle)>)
    ensures |r| == |t| && forall i :: 0 <= i < |t| ==> r[i] == (t[i].0, t[i].2)
  {
    seq(|t|, i requires 0 <= i < |t| => (t[i].0, t[i].2))
  }

  /** What `create_travel_buffers` returns for the three requests: `(size, src, dst)`. */
  function SizedTriples(sizes: seq<nat>, handles: seq<(Handle, Handle)>): (r: seq<(nat, Handle, Handle)>)
    requires |sizes| == 3 && |handles| == 3
    ensures |r| == 3 && forall i :: 0 <= i < 3 ==> r[i] == (sizes[i], handles[i].0, handles[i].1)
  {
    [(sizes[0], handles[0].0, handles[0].1), (sizes[1], handles[1].0, handles[1].1), (sizes[2], handles[2].0, handles[2].1)]
  }

  /** `create_buffer` accepts every travel pair. */
  predicate TravelOk(graphics: nat, transfer: Option<nat>, sizes: seq<nat>)
    requires |sizes| == 3
  {
    forall i :: 0 <= i < 3 ==> TravelPairInfos(graphics, transfer, TravelRequests(sizes)[i]).Ok?
  }

  /** The three travel pairs, through `create_travel_buffers`, which hands back the
      handles it was given, paired as requested. */
  method CreateTravel(device: Device, graphics: nat, transfer: Option<nat>, sizes: seq<nat>, handles: seq<(Handle, Handle)>)
    returns (created: bool)
    requires |sizes| == 3 && |handles| == 3
    modifies device
    ensures created <==> TravelOk(graphics, transfer, sizes)
    ensures created ==> device.log == old(device.log) + TravelEvents(graphics, transfer, TravelRequests(sizes), handles)
  {
    var travel := CreateTravelBuffers(device, graphics, transfer, TravelRequests(sizes), handles);
    created := travel.Ok?;
  }

  /** Both allocations succeed and have the same total size. */
  predicate AllocationsAgree(srcReqs: seq<MemoryRequirements>, dstReqs: seq<MemoryRequirements>, props: MemoryProperties)
    requires |props.memoryTypes| == MAX_MEMORY_TYPES
  {
    && PlanAllocation(srcReqs, props, HOST_MEMORY_PROPERTY_FLAGS).Ok?
    && PlanAllocation(dstReqs, props, LOCAL_MEMORY_PROPERTY_FLAGS).Ok?
    && PlanAllocation(srcReqs, props, HOST_MEMORY_PROPERTY_FLAGS).value.size
       == PlanAllocation(dstReqs, props, LOCAL_MEMORY_PROPERTY_FLAGS).value.size
  }

  /** Both allocations succeed but their total sizes differ. */
  predicate SizesDiffer(srcReqs: seq<MemoryRequirements>, dstReqs: seq<MemoryRequirements>, props: MemoryProperties)
    requires |props.memoryTypes| == MAX_MEMORY_TYPES
  {
    && PlanAllocation(srcReqs, props, HOST_MEMORY_PROPERTY_FLAGS).Ok?
    && PlanAllocation(dstReqs, props, LOCAL_MEMORY_PROPERTY_FLAGS).Ok?
    && PlanAllocation(srcReqs, props, HOST_MEMORY_PROPERTY_FLAGS).value.size
       != PlanAllocation(dstReqs, props, LOCAL_MEMORY_PROPERTY_FLAGS).value.size
  }

  /** The two allocations of `new` (the source in host memory, then the destination in
      device-local memory) and the size comparison after them. */
  method AllocatePair(device: Device, props: MemoryProperties, srcBuffers: seq<Handle>, dstBuffers: seq<Handle>,
                      srcReqs: seq<MemoryRequirements>, dstReqs: seq<MemoryRequirements>,
                      srcMemory: Handle, dstMemory: Handle)
    returns (r: Result<(Allocation, Allocation), ConstantError>)
    requires |srcBuffers| == |srcReqs| && |dstBuffers| == |dstReqs|
    requires |props.memoryTypes| == MAX_MEMORY_TYPES
    modifies device
    ensures r.Ok? <==> AllocationsAgree(srcReqs, dstReqs, props)
    ensures PlanAllocation(srcReqs, props, HOST_MEMORY_PROPERTY_FLAGS).Err? ==>
      r == Err(AllocationFailed(PlanAllocation(srcReqs, props, HOST_MEMORY_PROPERTY_FLAGS).error))
    ensures PlanAllocation(srcReqs, props, HOST_MEMORY_PROPERTY_FLAGS).Ok?
            && PlanAllocation(dstReqs, props, LOCAL_MEMORY_PROPERTY_FLAGS).Err? ==>
      r == Err(AllocationFailed(PlanAllocation(dstReqs, props, LOCAL_MEMORY_PROPERTY_FLAGS).error))
    ensures r == Err(SizeMismatch) <==> SizesDiffer(srcReqs, dstReqs, props)
    ensures r.Ok? ==>
      var src := PlanAllocation(srcReqs, props, HOST_MEMORY_PROPERTY_FLAGS).value;
      var dst := PlanAllocation(dstReqs, props, LOCAL_MEMORY_PROPERTY_FLAGS).value;
      && r.value.0 == Allocation(srcMemory, src.size, src.offsets)
      && r.value.1 == Allocation(dstMemory, dst.size, dst.offsets)
      && device.log == old(device.log) + AllocationEvents(src, srcBuffers, srcMemory)
                       + AllocationEvents(dst, dstBuffers, dstMemory)
  {
    var srcAllocation := AllocateVkBuffers(device, srcBuffers, srcReqs, props, HOST_MEMORY_PROPERTY_FLAGS, srcMemory);
    if srcAllocation.Err? {
      return Err(AllocationFailed(srcAllocation.error));
    }
    var dstAllocation := AllocateVkBuffers(device, dstBuffers, dstReqs, props, LOCAL_MEMORY_PROPERTY_FLAGS, dstMemory);
    if dstAllocation.Err? {
      return Err(AllocationFailed(dstAllocation.error));
    }
    if srcAllocation.value.size != dstAllocation.value.size {
      return Err(SizeMismatch);
    }
    r := Ok((srcAllocation.value, dstAllocation.value));
  }

  /** The copy half of `new`: the staging writes and the submission, then the teardown. */
  method StageAndSubmit(device: Device, srcMemory: Handle, srcOffsets: seq<nat>, sizes: seq<nat>,
                        ops: seq<CopyBufferOperation>, fence: Handle, queue: Queue)
    requires |srcOffsets| == 3 && |sizes| == 3
    modifies device
    ensures device.log == old(device.log) + SubmitEvents(srcMemory, srcOffsets, sizes, ops, fence, queue)
  {
    device.Call(CopyIntoMemory(srcMemory, srcOffsets[0], sizes[0]));
    device.Call(CopyIntoMemory(srcMemory, srcOffsets[1], sizes[1]));
    device.Call(CopyIntoMemory(srcMemory, srcOffsets[2], sizes[2]));
    device.Call(RecordCopyBuffers(ops));
    device.Call(CreateFence(fence, false));
    device.Call(QueueSubmit(queue, [], CopyCommandBuffer, [], fence));
    device.Call(WaitForFence(fence));
    device.Call(DestroyFence(fence));
  }

  /** The copy, then the staging teardown once the copy has completed. */
  method CopyThenTeardown(device: Device, srcMemory: Handle, srcOffsets: seq<nat>, sizes: seq<nat>,
                          ops: seq<CopyBufferOperation>, fence: Handle, queue: Queue, srcBuffers: seq<Handle>)
    requires |srcOffsets| == 3 && |sizes| == 3
    modifies device
    ensures device.log == old(device.log) + SubmitEvents(srcMemory, srcOffsets, sizes, ops, fence, queue)
                          + TeardownEvents(srcBuffers, srcMemory)
  {
    StageAndSubmit(device, srcMemory, srcOffsets, sizes, ops, fence, queue);
    DestroyStaging(device, srcBuffers, srcMemory);
  }

  /** The staging teardown loop. */
  method DestroyStaging(device: Device, srcBuffers: seq<Handle>, srcMemory: Handle)
    modifies device
    ensures device.log == old(device.log) + TeardownEvents(srcBuffers, srcMemory)
  {
    ghost var start := device.log;
    for k := 0 to |srcBuffers|
      invariant device.log == start + DestroyBufferEvents(srcBuffers[..k])
    {
      device.Call(DestroyBuffer(srcBuffers[k]));
      assert srcBuffers[..k + 1][..k] == srcBuffers[..k];
    }
    assert srcBuffers[..|srcBuffers|] == srcBuffers;
    device.Call(FreeMemory(srcMemory));
  }

  /** `LocalConstantMemory::new`. The model data, the scene and every driver answer
      (buffer handles, memory requirements, memory and fence handles) are passed in. On
      success: the vertex, index and instance buffers are destination buffers 0, 1 and 2
      at destination offsets 0, 1 and 2, and the calls are the travel buffers, both
      allocations, the copy and, only after the fence wait, the staging teardown. */
  method New(device: Device, props: MemoryProperties, graphics: nat, transfer: Option<nat>,
             hasTransferQueue: bool, models: Models.Models, scene: StaticScene.StaticScene,
             handles: seq<(Handle, Handle)>, srcReqs: seq<MemoryRequirements>, dstReqs: seq<MemoryRequirements>,
             srcMemory: Handle, dstMemory: Handle, fence: Handle)
    returns (r: Result<LocalConstantMemory, ConstantError>)
    requires |handles| == 3 && |srcReqs| == 3 && |dstReqs| == 3
    requires |props.memoryTypes| == MAX_MEMORY_TYPES
    modifies device
    ensures r.Ok? <==>
      && TravelOk(graphics, transfer, BufferSizes(models, scene))
      && AllocationsAgree(srcReqs, dstReqs, props)
      && DrawProps(models, StaticScene.Objects(scene).1, StaticScene.Objects(scene).0.parts).Some?
    ensures r == Err(ZeroSizedBuffer) <==> !TravelOk(graphics, transfer, BufferSizes(models, scene))
    ensures TravelOk(graphics, transfer, BufferSizes(models, scene))
            && PlanAllocation(srcReqs, props, HOST_MEMORY_PROPERTY_FLAGS).Err? ==>
      r == Err(AllocationFailed(PlanAllocation(srcReqs, props, HOST_MEMORY_PROPERTY_FLAGS).error))
    ensures TravelOk(graphics, transfer, BufferSizes(models, scene))
            && PlanAllocation(srcReqs, props, HOST_MEMORY_PROPERTY_FLAGS).Ok?
            && PlanAllocation(dstReqs, props, LOCAL_MEMORY_PROPERTY_FLAGS).Err? ==>
      r == Err(AllocationFailed(PlanAllocation(dstReqs, props, LOCAL_MEMORY_PROPERTY_FLAGS).error))
    ensures r == Err(SizeMismatch) <==>
      TravelOk(graphics, transfer, BufferSizes(models, scene)) && SizesDiffer(srcReqs, dstReqs, props)
    ensures r == Err(ModelIndexOutOfRange) <==>
      && TravelOk(graphics, transfer, BufferSizes(models, scene))
      && AllocationsAgree(srcReqs, dstReqs, props)
      && DrawProps(models, StaticScene.Objects(scene).1, StaticScene.Objects(scene).0.parts).None?
    ensures r.Ok? ==>
      var src := PlanAllocation(srcReqs, props, HOST_MEMORY_PROPERTY_FLAGS).value;
      var dst := PlanAllocation(dstReqs, props, LOCAL_MEMORY_PROPERTY_FLAGS).value;
      var (objs, modelIndices) := StaticScene.Objects(scene);
      var sizes := BufferSizes(models, scene);
      var triples := SizedTriples(sizes, handles);
      && |src.offsets| == 3 && |dst.offsets| == 3
      && DrawProps(models, modelIndices, objs.parts).Some?
      && r.value == LocalConstantMemory(dstMemory, handles[0].1, dst.offsets[0], handles[1].1, dst.offsets[1],
                                        handles[2].1, dst.offsets[2], DrawProps(models, modelIndices, objs.parts).value)
      && device.log == old(device.log) + TravelEvents(graphics, transfer, TravelRequests(sizes), handles)
                       + AllocationEvents(src, [handles[0].0, handles[1].0, handles[2].0], srcMemory)
                       + AllocationEvents(dst, [handles[0].1, handles[1].1, handles[2].1], dstMemory)
                       + SubmitEvents(srcMemory, src.offsets, [sizes[0], sizes[1], Instance.SIZE * Len(objs)],
                                      CopyOperations(Sources(triples), Destinations(triples)), fence,
                                      CopyQueue(hasTransferQueue))
                       + TeardownEvents([handles[0].0, handles[1].0, handles[2].0], srcMemory)
  {
    var sizes := BufferSizes(models, scene);
    var created := CreateTravel(device, graphics, transfer, sizes, handles);
    if !created {
      return Err(ZeroSizedBuffer);
    }
    var srcBuffers := [handles[0].0, handles[1].0, handles[2].0];
    var dstBuffers := [handles[0].1, handles[1].1, handles[2].1];
    var pair := AllocatePair(device, props, srcBuffers, dstBuffers, srcReqs, dstReqs, srcMemory, dstMemory);
    if pair.Err? {
      return Err(pair.error);
    }
    var (srcAllocation, dstAllocation) := pair.value;
    PlanOffsetsLength(srcReqs, props, HOST_MEMORY_PROPERTY_FLAGS);
    PlanOffsetsLength(dstReqs, props, LOCAL_MEMORY_PROPERTY_FLAGS);
    r := Finish(device, models, scene, hasTransferQueue, sizes, handles, srcMemory, srcAllocation.offsets,
                dstAllocation, fence);
  }

  /** The second half of `new`, once both allocations exist: the draw properties, the
      copy and the staging teardown, and the resulting record. */
  method Finish(device: Device, models: Models.Models, scene: StaticScene.StaticScene, hasTransferQueue: bool,
                sizes: seq<nat>, handles: seq<(Handle, Handle)>, srcMemory: Handle, srcOffsets: seq<nat>,
                dstAllocation: Allocation, fence: Handle)
    returns (r: Result<LocalConstantMemory, ConstantError>)
    requires |sizes| == 3 && |handles| == 3 && |srcOffsets| == 3 && |dstAllocation.offsets| == 3
    modifies device
    ensures r.Err? ==> r.error == ModelIndexOutOfRange
    ensures r.Ok? <==> DrawProps(models, StaticScene.Objects(scene).1, StaticScene.Objects(scene).0.parts).Some?
    ensures r.Ok? ==>
      var (objs, modelIndices) := StaticScene.Objects(scene);
      var triples := SizedTriples(sizes, handles);
      && DrawProps(models, modelIndices, objs.parts).Some?
      && r.value == LocalConstantMemory(dstAllocation.memory, handles[0].1, dstAllocation.offsets[0], handles[1].1,
                                        dstAllocation.offsets[1], handles[2].1, dstAllocation.offsets[2],
                                        DrawProps(models, modelIndices, objs.parts).value)
      && device.log == old(device.log)
                       + SubmitEvents(srcMemory, srcOffsets, [sizes[0], sizes[1], Instance.SIZE * Len(objs)],
                                      CopyOperations(Sources(triples), Destinations(triples)), fence,
                                      CopyQueue(hasTransferQueue))
                       + TeardownEvents([handles[0].0, handles[1].0, handles[2].0], srcMemory)
  {
    var (objs, modelIndices) := StaticScene.Objects(scene);
    var drawProps := DrawProps(models, modelIndices, objs.parts);
    if drawProps.None? {
      return Err(ModelIndexOutOfRange);
    }
    var triples := SizedTriples(sizes, handles);
    // The instance data are one record per static object.
    var instanceBytes := Instance.SIZE * Len(objs);
    var ops := CopyOperations(Sources(triples), Destinations(triples));
    CopyThenTeardown(device, srcMemory, srcOffsets, [sizes[0], sizes[1], instanceBytes], ops, fence,
                     CopyQueue(hasTransferQueue), [handles[0].0, handles[1].0, handles[2].0]);
    r := Ok(LocalConstantMemory(dstAllocation.memory, handles[0].1, dstAllocation.offsets[0], handles[1].1,
                                dstAllocation.offsets[1], handles[2].1, dstAllocation.offsets[2], drawProps.value));
  }

  /** `vertex()` and `index()`. */
  function VertexBuffer(m: LocalConstantMemory): Handle { m.vertex }
  function IndexBuffer(m: LocalConstantMemory): Handle { m.index }

  /** `destroy_self`: the vertex, index and instance buffers, then the memory. */
  method DestroySelf(device: Device, m: LocalConstantMemory)
    modifies device
    ensures device.log == old(device.log) + [DestroyBuffer(m.vertex), DestroyBuffer(m.index),
                                             DestroyBuffer(m.instance), FreeMemory(m.memory)]
  {
    device.Call(DestroyBuffer(m.vertex));
    device.Call(DestroyBuffer(m.index));
    device.Call(DestroyBuffer(m.instance));
    device.Call(FreeMemory(m.memory));
  }

  // ---------------------------------------------------------------------------
  // Properties

  /** Staging buffers and memory are released only after the copy fence has been waited
      on: the submission is call 5 and the wait call 6 of the copy phase, nothing before
      the wait destroys or frees anything, and after it come the fence's destruction,
      every staging buffer's destruction in order, and the memory release. */
  lemma StagingFreedAfterWait(srcMemory: Handle, srcOffsets: seq<nat>, sizes: seq<nat>,
                              ops: seq<CopyBufferOperation>, fence: Handle, queue: Queue, srcBuffers: seq<Handle>)
    requires |srcOffsets| == 3 && |sizes| == 3
    ensures var tail := SubmitEvents(srcMemory, srcOffsets, sizes, ops, fence, queue) + TeardownEvents(srcBuffers, srcMemory);
      && |tail| == 9 + |srcBuffers|
      && tail[5] == QueueSubmit(queue, [], CopyCommandBuffer, [], fence)
      && tail[6] == WaitForFence(fence)
      && (forall e :: e in tail[..7] ==> !(e.DestroyBuffer? || e.FreeMemory? || e.DestroyFence?))
      && tail[7..] == [DestroyFence(fence)] + DestroyBufferEvents(srcBuffers) + [FreeMemory(srcMemory)]
  {
    var submit := SubmitEvents(srcMemory, srcOffsets, sizes, ops, fence, queue);
    var teardown := TeardownEvents(srcBuffers, srcMemory);
    SubmitShape(srcMemory, srcOffsets, sizes, ops, fence, queue);
    AppendShape(submit, teardown, 7);
    assert submit[7..] == [DestroyFence(fence)];
  }

  /** The copy phase submits at call 5, waits at call 6, destroys the fence last and
      destroys nothing before the wait. */
  lemma SubmitShape(srcMemory: Handle, srcOffsets: seq<nat>, sizes: seq<nat>,
                    ops: seq<CopyBufferOperation>, fence: Handle, queue: Queue)
    requires |srcOffsets| == 3 && |sizes| == 3
    ensures var submit := SubmitEvents(srcMemory, srcOffsets, sizes, ops, fence, queue);
      && |submit| == 8
      && submit[5] == QueueSubmit(queue, [], CopyCommandBuffer, [], fence)
      && submit[6] == WaitForFence(fence)
      && submit[7] == DestroyFence(fence)
      && (forall e :: e in submit[..7] ==> !(e.DestroyBuffer? || e.FreeMemory? || e.DestroyFence?))
  {
  }

  lemma AppendShape(a: seq<Event>, b: seq<Event>, n: nat)
    requires n <= |a|
    ensures (a + b)[..n] == a[..n]
    ensures (a + b)[n..] == a[n..] + b
    ensures n < |a| ==> (a + b)[n] == a[n]
  {
  }

  /** For a scene whose object count is its number of objects (as `load` sets it), the
      instance data copied into staging fill exactly the instance buffer. */
  lemma InstanceCopyFillsBuffer(models: Models.Models, scene: StaticScene.StaticScene)
    requires scene.totalObjCount == |scene.squares| + |scene.cubes|
    ensures Instance.SIZE * Len(StaticScene.Objects(scene).0) == BufferSizes(models, scene)[2]
  {
    StaticScene.ObjectsLayout(scene);
  }

  /** The draws of the loaded models and a static scene: squares draw the square model
      with every square instance from 0, cubes draw the cube model with the cube instances
      that follow, as long as every count fits the casts. */
  lemma SceneDraws(square: Models.ModelData, cube: Models.ModelData, niko: Models.ModelData,
                   scene: StaticScene.StaticScene)
    requires |square.0| + |cube.0| + |niko.0| < 0x8000_0000
    requires |square.1| + |cube.1| + |niko.1| < 0x8000_0000
    requires |scene.squares| + |scene.cubes| < 0x8000_0000
    ensures var (objs, modelIndices) := StaticScene.Objects(scene);
      DrawProps(Models.Load(square, cube, niko), modelIndices, objs.parts) == Some([
        DrawProperties(|square.1|, |scene.squares|, 0, 0, 0),
        DrawProperties(|cube.1|, |scene.cubes|, |square.1|, |square.0|, |scene.squares|)])
  {
    Models.LoadOrder(square, cube, niko);
    StaticScene.ObjectsLayout(scene);
    var (objs, modelIndices) := StaticScene.Objects(scene);
    var r := DrawProps(Models.Load(square, cube, niko), modelIndices, objs.parts);
    var m := Models.Load(square, cube, niko);
    assert r.Some? && |r.value| == 2;
    assert objs.parts[0] == Partition(|scene.squares|, 0) && objs.parts[1] == Partition(|scene.cubes|, |scene.squares|);
    assert m.indices.parts[1] == Partition(|cube.1|, |square.1|) && m.vertices.parts[1].offset == |square.0|;
    assert r.value[0] == DrawProperties(|square.1|, |scene.squares|, 0, 0, 0);
    assert r.value[1] == DrawProperties(|cube.1|, |scene.cubes|, |square.1|, |square.0|, |scene.squares|);
    assert r.value == [r.value[0], r.value[1]];
  }
}
