# A verified model of the core of an ash/Vulkan renderer

This project models the sequential logic of a small Rust renderer built on `ash`, the
Vulkan bindings, and on `winit`, and proves properties of it in Dafny. Driver objects
(buffers, memories, fences, semaphores, swapchains, image views, framebuffers,
pipelines) are opaque handles. Every call the renderer makes into the driver is recorded
as an abstract event in a ghost log. What the driver, the surface and the window answer is
passed in as an input of each modelled operation.

Modules, one per source file:

- `Linear2dVec` — the partition table (`Linear2dVec`, `Partition`). It flattens a
  vector of vectors into one data vector plus `{size, offset}` per chunk.
- `Buffers` — the shared-allocation layout of `allocate_vk_buffers`:
  - the OR-ed type filter;
  - the largest alignment;
  - the padded sizes and the running offsets.
  It also covers `find_memory_type`, `create_buffer` and `create_travel_buffers`.
- `HostWritable` — the per-frame instance buffers in one mapped allocation. Mapped memory
  is an `array<Byte>` that `write_instance` writes in place.
- `LocalConstant` — the constant tier:
  - sizes, the size-equality panic and the draw properties;
  - the staging writes, the copy submission and the staging teardown after the fence wait.
- `Swapchain` — the swapchain manager (`current`, `old`). It also holds the format,
  present-mode, extent and image-count choices made from the surface queries of the
  Vulkan specification ("Window System Integration", "Surface Queries"), and the
  `RecreationChanges` diff.
- `Sync` — the frame synchroniser:
  - two slots used in turn and the recreate flag;
  - the wait, reset, acquire, submit and present protocol;
  - acquire and present failure handling.
- `Renderer` — the order of `recreate_swapchain`, the teardown order of `Drop`, and
  `check_validation_layers_support`.
- `PhysicalDevice` — queue-family scan, device filtering, ranking and selection.
- `Utility` — `contains_all`, together with `sort` and `binary_search` on which it is
  built, and `i8_array_to_string` with UTF-8 validation.
- `Models`, `StaticScene` — the model table and the static scene, both laid out by
  `Linear2dVec`.
- `Vertices`, `Color`, `Tex`, `Instance`, `SquareInstance`, `LegacyVertex` — vertex-input
  descriptions and the macros that fold them into a pipeline's vertex-input state.
- `Keys`, `App`, `MainLoop` — key state, the application's bounded square list and the
  window event loop.
- `Wrappers`, `Scalars`, `Vk` — `Option`/`Result`, machine scalars (`f32` kept as its
  32-bit pattern, truncating casts), and the driver vocabulary.

State the source changes in place is a `class` whose methods carry `modifies` clauses:
`HostWritableMemory`, `Swapchains`, `SyncRender`, `Renderer`, `Keys`, `App`,
`MainLoop` and the driver `Device`. Each method is tied by its postcondition to a pure
function of the old state and the inputs. The lemmas are stated about those functions.

## Model

| member | source | states |
|---|---|---|
| Linear2dVec.SizedFlatten | src/structures/linear_2d_vec.rs:4-15 | the running-offset loop yields one partition per chunk, in order, each sized by its chunk, and the data is the chunks concatenated |
| Linear2dVec.FromVec | src/structures/linear_2d_vec.rs:46-49 | `from_vec` builds the table of the chunks: one partition per chunk and as many elements as the chunks hold together |
| Linear2dVec.FromIterator | src/structures/linear_2d_vec.rs:110-143 | both `From` iterator impls build exactly the table `from_vec` builds for the same chunks |
| Linear2dVec.Index | src/structures/linear_2d_vec.rs:101-108 | indexing returns `size` elements read from the data starting at the partition's offset |
| Linear2dVec.Deconstruct | src/structures/linear_2d_vec.rs:87-89 | `deconstruct` hands back data and partitions unchanged |
| Linear2dVec.ConcatLength | src/structures/linear_2d_vec.rs:13 | the flattened data is as long as the chunks together |
| Linear2dVec.PartsPrefix | src/structures/linear_2d_vec.rs:8-12 | the partitions of a prefix of the chunks are the prefix of the partitions |
| Linear2dVec.PartsAt | src/structures/linear_2d_vec.rs:6-12 | partition i has chunk i's length as size and the sum of the earlier lengths as offset |
| Linear2dVec.Contiguous | src/structures/linear_2d_vec.rs:9-11 | each partition starts where the previous one ends, so partitions neither overlap nor leave gaps |
| Linear2dVec.LenIsLastEnd | src/structures/linear_2d_vec.rs:51-53 | `len()` is the sum of the chunk lengths, which is the last partition's offset plus its size |
| Linear2dVec.IndexRoundTrip | src/structures/linear_2d_vec.rs:101-108 | round trip: indexing the table built from the chunks at i gives back chunk i |
| Linear2dVec.PartOfFlattened | src/structures/linear_2d_vec.rs:59-65 | `part(i)` and `offset(i)` of the built table report chunk i's length and start |
| Buffers.Sizes | src/render/objects/buffers/mod.rs:94 | one full size per buffer, in order, each the size its memory requirements report |
| Buffers.BindEvents | src/render/objects/buffers/mod.rs:120-126 | the bind calls pair buffer i with offset i in the one allocation, for as many pairs as the zip yields |
| Buffers.DestroyBufferEvents | src/render/objects/buffers/host_writable.rs:82-87 | one destroy call per buffer, in order |
| Buffers.ComputeLayout | src/render/objects/buffers/mod.rs:79-104 | the two loops of `allocate_vk_buffers` compute the reference layout (filter, alignment, offsets, total) or fail on a bad alignment |
| Buffers.FoldRequirements | src/render/objects/buffers/mod.rs:79-95 | the requirements loop fails exactly when some alignment is not a positive power of two, and otherwise yields the OR of the type bits, the largest alignment and the sizes in order |
| Buffers.PadAndLayOut | src/render/objects/buffers/mod.rs:96-103 | the padding loop yields the running-sum offsets and total of the padded sizes |
| Buffers.FindMemoryType | src/render/objects/buffers/mod.rs:279-292 | the early-return loop yields the reference choice: the lowest suitable memory-type index, or none (the panic) |
| Buffers.ComputePlan | src/render/objects/buffers/mod.rs:79-105 | layout and memory-type choice together equal the reference plan |
| Buffers.AllocateVkBuffers | src/render/objects/buffers/mod.rs:72-129 | on failure nothing is called; on success the memory is allocated with the plan's total size and type, every buffer is bound at its own offset, and memory, total and offsets are returned |
| Buffers.BindAll | src/render/objects/buffers/mod.rs:105-126 | the allocation call followed by the bind calls, nothing else |
| Buffers.BindLoop | src/render/objects/buffers/mod.rs:120-126 | the bind loop appends exactly one bind call per buffer, at that buffer's offset |
| Buffers.PlanOffsetsLength | src/render/objects/buffers/mod.rs:97-104 | a successful plan has one offset per buffer |
| Buffers.ExclusiveBufferInfo | src/render/objects/buffers/mod.rs:198-220 | the exclusive create info carries the size and usage, EXCLUSIVE sharing, no family list and the graphics family in the count field |
| Buffers.ConcurrentBufferInfo | src/render/objects/buffers/mod.rs:222-245 | `create_buffer` fails exactly on a zero size; otherwise CONCURRENT sharing over the given families |
| Buffers.CreateTravelBuffers | src/render/objects/buffers/mod.rs:248-277 | one `(size, src, dst)` per request, in order, with the same size for both; the source then the destination are created per request with CONCURRENT sharing over [graphics, transfer] iff a transfer family exists, else EXCLUSIVE; it fails iff some request fails |
| Buffers.MaxAlignmentBounds | src/render/objects/buffers/mod.rs:92 | the alignment used is at least every buffer's alignment and is one of them |
| Buffers.MaxAlignmentPositive | src/render/objects/buffers/mod.rs:86-92 | with every alignment a positive power of two, the largest one is a positive power of two |
| Buffers.PowerOfTwoDivides | src/render/objects/buffers/mod.rs:86 | a power of two divides every larger power of two |
| Buffers.AlignmentCoversAll | src/render/objects/buffers/mod.rs:86-92 | the chosen alignment is a multiple of every buffer's alignment, so offsets aligned to it satisfy each buffer |
| Buffers.LayoutFailsIffBadAlignment | src/render/objects/buffers/mod.rs:87-91 | the layout fails exactly when some reported alignment is not a positive power of two |
| Buffers.PaddedSizeProperties | src/render/objects/buffers/mod.rs:100 | `size + a - size % a` is a multiple of `a`, strictly greater than `size` and at most `size + a`, and adds a whole `a` to an aligned size |
| Buffers.LayoutLength | src/render/objects/buffers/mod.rs:98-102 | one offset per size |
| Buffers.LayoutPrefix | src/render/objects/buffers/mod.rs:99-103 | the offsets of a prefix of the sizes are the prefix of the offsets |
| Buffers.LayoutRunningSum | src/render/objects/buffers/mod.rs:97-103 | `offsets[0] == 0`, `offsets[i+1] == offsets[i] + padded_i`, and the total is the last offset plus the last padded size |
| Buffers.LayoutAligned | src/render/objects/buffers/mod.rs:97-103 | every offset and the total are multiples of the alignment |
| Buffers.LayoutDisjoint | src/render/objects/buffers/mod.rs:97-103 | every buffer ends strictly before every later buffer starts and before the total size |
| Buffers.SumPaddedSnoc | src/render/objects/buffers/mod.rs:102 | the padded sum grows by the padded size of each added buffer |
| Buffers.LayoutTotal | src/render/objects/buffers/mod.rs:96-103 | `total_size` is the sum of the padded sizes |
| Buffers.TypeFilterIsUnion | src/render/objects/buffers/mod.rs:79-84 | a memory type is in the filter iff some buffer's type bits contain it (bitwise OR) |
| Buffers.MemoryTypeForIsLowest | src/render/objects/buffers/mod.rs:279-292 | the chosen type is suitable (bit set in the filter, flags contain the required ones) and no lower type is; none is chosen only when no type is suitable |
| Buffers.FirstSuitableSpec | src/render/objects/buffers/mod.rs:284-289 | scanning from index `from` finds the first suitable type at or after it, or shows none exists |
| Buffers.OrFilterCanRejectABuffer | src/render/objects/buffers/mod.rs:84 | with the OR filter, a group can get a memory type that one of its buffers does not accept |
| Buffers.PlanProperties | src/render/objects/buffers/mod.rs:72-129 | a successful plan names a memory type that has the required flags and is accepted by at least one buffer, and has one offset per buffer |
| HostWritable.Offsets | src/render/objects/buffers/host_writable.rs:50-53 | the slot offsets, one per slot, in slot order |
| HostWritable.SlotBuffers | src/render/objects/buffers/host_writable.rs:78-80 | slot i's buffer, for every slot, in order |
| HostWritable.CreateEvents | src/render/objects/buffers/host_writable.rs:29-41 | one exclusive create call per slot on the compute family, each of `size_of::<MatrixInstance>() * max_instances` bytes with STORAGE_SRC usage |
| HostWritable.CreateSlotBuffers | src/render/objects/buffers/host_writable.rs:33-41 | the creation loop issues exactly those calls, in slot order |
| HostWritable.HostWritableMemory.constructor | src/render/objects/buffers/host_writable.rs:56 | the object holds the memory, the slot table and a mapped region of the allocation's size |
| HostWritable.HostWritableMemory.Create | src/render/objects/buffers/host_writable.rs:21-57 | `FRAMES_IN_FLIGHT` slot buffers are created and allocated together in host-visible memory; slot i pairs buffer i with offset i; the slot regions lie inside the allocation without overlapping; failure iff the allocator fails |
| HostWritable.HostWritableMemory.AllocateSlots | src/render/objects/buffers/host_writable.rs:43-56 | the allocation half of `new`: one allocation with the plan's size, slot table `[(buffer 0, offset 0), (buffer 1, offset 1)]`, and no call on failure |
| HostWritable.HostWritableMemory.WriteInstance | src/render/objects/buffers/host_writable.rs:59-76 | the encoded records land at slot i's offset and the mapped memory is otherwise unchanged; the region fits in the allocation given the record-count bound |
| HostWritable.HostWritableMemory.DestroySelf | src/render/objects/buffers/host_writable.rs:82-87 | every slot buffer is destroyed, in order, and then the memory is freed once |
| HostWritable.SlotLayout | src/render/objects/buffers/host_writable.rs:43-56 | the allocator's layout gives every slot a full-size region inside the allocation that overlaps no other slot |
| HostWritable.WriteThenRead | src/render/objects/buffers/host_writable.rs:66-74 | decoding the written region gives back the records written |
| HostWritable.WriteKeepsOtherSlots | src/render/objects/buffers/host_writable.rs:66-74 | a write within the slot size changes no byte outside its range, in particular no byte of another slot |
| LocalConstant.BufferSizes | src/render/objects/buffers/local_constant.rs:71-73 | the three byte sizes are the vertex stride times the vertex count, 2 times the index count, and the instance size times the scene's object count |
| LocalConstant.TravelRequests | src/render/objects/buffers/local_constant.rs:74-82 | three requests with those sizes, in order, with the vertex, index and storage destination usages |
| LocalConstant.TravelRequestsCanCopy | src/render/objects/buffers/local_constant.rs:77-81 | every staging buffer may be a copy source and every destination a copy target |
| LocalConstant.DrawProps | src/render/objects/buffers/local_constant.rs:110-126 | one draw per (model index, instance partition) pair of the zip, in order: index count, first index and vertex offset from the model, instance count and first instance from the partition; absent exactly when a model index is out of range |
| LocalConstant.ZipDraws | src/render/objects/buffers/local_constant.rs:112-126 | the map over equally long lists gives each pair's draw, and fails iff some pair has no model |
| LocalConstant.CopyOperations | src/render/objects/buffers/local_constant.rs:151-163 | one copy per (source, destination) pair of the zip, copying the source's size from offset 0 to offset 0 |
| LocalConstant.CopyQueue | src/render/objects/buffers/local_constant.rs:199-203 | the copy goes to the transfer queue iff one exists, else to the graphics queue |
| LocalConstant.Sources | src/render/objects/buffers/local_constant.rs:85-88 | `src_buffers` is `(size, src)` of every travel triple, in order |
| LocalConstant.Destinations | src/render/objects/buffers/local_constant.rs:89-92 | `dst_buffers` is `(size, dst)` of every travel triple, in order |
| LocalConstant.SizedTriples | src/render/objects/buffers/local_constant.rs:74-82 | the travel triples pair each size with its source and destination handles |
| LocalConstant.CreateTravel | src/render/objects/buffers/local_constant.rs:74-82 | the three travel pairs are created iff `create_buffer` accepts each, with the creation calls in order |
| LocalConstant.AllocatePair | src/render/objects/buffers/local_constant.rs:93-108 | staging memory then device-local memory are allocated; the result is Ok iff both succeed with equal totals; a failed staging plan is reported with its error and nothing logged, a failed device-local plan after a good staging plan with its error, and a size mismatch exactly when both succeed with different totals |
| LocalConstant.StageAndSubmit | src/render/objects/buffers/local_constant.rs:136-210 | the staging writes at offsets 0, 1 and 2, the recorded copies, an unsignaled fence, one submission without semaphores signalling it, the wait on it and its destruction, in that order |
| LocalConstant.CopyThenTeardown | src/render/objects/buffers/local_constant.rs:136-214 | the copy phase followed by the staging teardown |
| LocalConstant.DestroyStaging | src/render/objects/buffers/local_constant.rs:211-214 | every staging buffer is destroyed, in order, then the staging memory is freed |
| LocalConstant.New | src/render/objects/buffers/local_constant.rs:60-234 | on success the buffers are destination buffers 0, 1 and 2 at destination offsets 0, 1 and 2 with the derived draws; the calls are creation, both allocations, copy, wait and then staging teardown; the result is Ok exactly when the travel buffers can be created, both allocations agree and every model index is in range; each error is reported exactly in its own case, in the source's order: zero-sized buffer, allocation failure (staging first), size mismatch, model index out of range |
| LocalConstant.Finish | src/render/objects/buffers/local_constant.rs:110-233 | after the allocations: fails exactly on an out-of-range model index, else copies, tears the staging down and returns the destination record |
| LocalConstant.DestroySelf | src/render/objects/buffers/local_constant.rs:244-249 | vertex, index and instance buffers are destroyed, then the memory is freed |
| LocalConstant.StagingFreedAfterWait | src/render/objects/buffers/local_constant.rs:196-215 | the submission precedes the fence wait, nothing before the wait destroys or frees, and the fence, every staging buffer in order and the staging memory are released after it |
| LocalConstant.InstanceCopyFillsBuffer | src/render/objects/buffers/local_constant.rs:128-145 | for a loaded scene the instance records written to staging fill exactly the instance buffer |
| LocalConstant.SceneDraws | src/render/objects/buffers/local_constant.rs:110-126 | for the loaded models and scene: squares draw the square model with instances from 0, cubes draw the cube model with the instances after the squares |
| Swapchain.SelectSwapchainImageFormat | src/render/objects/swapchain.rs:303-322 | the early-return loop yields the reference choice: the first B8G8R8A8_SRGB / SRGB_NONLINEAR entry, else the first entry, and nothing for an empty list (where `formats[0]` panics) |
| Swapchain.SelectedFormatSpec | src/render/objects/swapchain.rs:314-321 | there is a choice iff the list is non-empty; the choice is an entry with no preferred entry before it, and is preferred unless no entry is, in which case it is entry 0 |
| Swapchain.FirstPreferredSpec | src/render/objects/swapchain.rs:314-320 | the scan finds a preferred entry iff one exists, and finds the first one |
| Swapchain.PresentModeIsMostPreferred | src/render/objects/swapchain.rs:335-348 | the chosen mode is available or is the FIFO fallback, and no available mode ranks before it in the order IMMEDIATE, FIFO_RELAXED (both only with vsync), MAILBOX, FIFO |
| Swapchain.ExtentRule | src/render/objects/swapchain.rs:351-372 | a current extent whose width is not `u32::MAX` is used as is; with the sentinel each dimension lies in the surface's range and is the window's own when that already lies in it |
| Swapchain.ImageCount | src/render/objects/swapchain.rs:150-154 | one more than the minimum, capped by the maximum when the maximum is non-zero; a zero maximum means no cap |
| Swapchain.ViewEvents | src/render/objects/swapchain.rs:374-380 | one image-view creation per image, in order, with the chain's format |
| Swapchain.DestroyEvents | src/render/objects/swapchain.rs:291-300 | every view is destroyed, in order, and the swapchain last |
| Swapchain.CreateImageViews | src/render/objects/swapchain.rs:374-380 | the loop issues exactly one view creation per image, in order |
| Swapchain.Build | src/render/objects/swapchain.rs:140-276 | fails (with no call made) exactly when the surface has no format; otherwise creates the swapchain from the chosen format, mode, extent and count, queries its images and creates their views |
| Swapchain.UnchangedSurfaceNoChanges | src/render/objects/swapchain.rs:222-225 | recreating from the same surface answers and window size reports neither a format nor an extent change |
| Swapchain.ChangesIff | src/render/objects/swapchain.rs:222-225 | the format flag is set iff the format differs, the extent flag iff the extent differs |
| Swapchain.Swapchains.constructor | src/render/objects/swapchain.rs:36-40 | the manager starts with the given chain and nothing retired |
| Swapchain.Swapchains.New | src/render/objects/swapchain.rs:17-41 | the first chain is built with a null `old_swapchain`, and nothing is retired; it fails exactly when there is no surface format |
| Swapchain.Swapchains.RecreateSwapchain | src/render/objects/swapchain.rs:50-281 | the new chain names the previous one as `old_swapchain` and becomes current, the previous one is retired, and the changes compare format and extent with it; on failure nothing changes |
| Swapchain.Swapchains.DestroyOld | src/render/objects/swapchain.rs:91-98 | destroys the retired chain when there is one and clears it; with nothing retired it calls nothing, so a second call is a no-op |
| Swapchain.Swapchains.DestroySelf | src/render/objects/swapchain.rs:100-103 | the retired chain, if any, is destroyed before the current one |
| Swapchain.DestroyChain | src/render/objects/swapchain.rs:291-300 | `Swapchain::destroy_self` destroys every view and then the swapchain |
| Sync.NextSlot | src/render/sync.rs:182 | the slot after `last` is always a valid slot index |
| Sync.FrameTick | src/render/sync.rs:173-357 | one frame that completes leaves a valid last slot |
| Sync.SyncRender.Initialize | src/render/sync.rs:24-167 | two frames, each with three semaphores and a fence created signaled; slot 0 is recorded as last used and no recreation is pending |
| Sync.SyncRender.HandleWindowResize | src/render/sync.rs:169-171 | only the recreation flag is raised; no call is made and the slot is unchanged |
| Sync.SyncRender.RenderNextFrame | src/render/sync.rs:173-357 | the calls made, the panic and its reason, and the new slot and flag are exactly those of the frame specification |
| Sync.SyncRender.AcquireImage | src/render/sync.rs:230-252 | a suboptimal image raises the flag and is used; an error gives one recreation waiting on the previous slot's fence and one retry, whose error or suboptimal answer panics |
| Sync.SyncRender.RecordSubmitPresent | src/render/sync.rs:255-354 | recording, the compute submit, the graphics submit and the present, in that order, for the current slot |
| Sync.SyncRender.Drop | src/render/sync.rs:67-73 | each frame waits for the device to be idle and then destroys its three semaphores and its fence |
| Sync.SlotRotation | src/render/sync.rs:182-356 | a completed frame records slot `(last + 1) % 2` as last, never the same slot twice in a row |
| Sync.FrameStart | src/render/sync.rs:186-241 | with the flag set, the frame starts with one recreation passed the previous slot's fence and never waits on the current slot's fence; without it, it starts with that wait; a recreation happens only there or right after a failed acquire |
| Sync.ResetBeforeWork | src/render/sync.rs:208-340 | the current slot's fence is reset right after the start, before any recording or submit; the graphics submit signals it and the compute submit signals no fence |
| Sync.SemaphoreChain | src/render/sync.rs:273-347 | compute signals `instance_compute_finished`; graphics waits on `image_available` (color-attachment output) and on it (vertex input) and signals `render_finished` and the fence; the present waits on `render_finished` and shows the acquired image |
| Sync.FrameOutcome | src/render/sync.rs:230-356 | the frame panics iff the acquire and then the retry fail or the retry is suboptimal; otherwise the flag ends raised iff the acquire was suboptimal or the present failed, and the slot is still recorded |
| Sync.RunAlternatesSlots | src/render/sync.rs:162-356 | after k completed frames the last slot used is `(start + k) % 2`, so slots alternate 1, 0, 1, ... |
| Sync.SignaledUntouched | src/render/sync.rs:186-214 | calls that do not touch a fence leave its signaled state as it was |
| Sync.FrameWaitPositions | src/render/sync.rs:186-241 | step 0 waits on the current slot's fence, or on the previous slot's when recreating; after a failed acquire step 3 waits on the previous slot's fence, which steps 0 to 2 do not touch; no other step waits |
| Sync.FrameWaitsSafely | src/render/sync.rs:186-252 | with both slot fences signaled, every wait of one frame is on a signaled fence |
| Sync.FrameResignalsFences | src/render/sync.rs:208-340 | a completed frame leaves both slot fences signaled: the current one by the graphics submit, the other one untouched |
| Sync.SafeWaitsAppend | src/render/sync.rs:173-357 | safe waits compose across consecutive frames |
| Sync.RunWaitsSafely | src/render/sync.rs:173-357 | with both fences signaled, no wait of any sequence of frames blocks |
| Sync.NoDeadlock | src/render/sync.rs:48-214 | after `initialize`, whose fences are created signaled, no fence wait of any sequence of frames can block forever |
| Renderer.FramebufferDestroyEvents | src/render/renderer.rs:253-255 | one framebuffer destruction per framebuffer, in order |
| Renderer.RecreateWaitsBeforeDestroying | src/render/renderer.rs:238-267 | the new swapchain is created first; the fence wait comes right after the new chain is built; nothing before it destroys a view, swapchain, framebuffer or render pass; every old framebuffer and the retired swapchain are destroyed after it |
| Renderer.BuildCreatesOnly | src/render/objects/swapchain.rs:256-268 | building a chain creates and queries only and starts with the swapchain creation |
| Renderer.RecreateRebuildsDependents | src/render/renderer.rs:257-265 | the main pipelines are rebuilt iff the extent changed, and the render pass is destroyed and created again iff both the extent and the format changed; the pipelines use the resulting render pass |
| Renderer.RecreateDestroysOldOnceThenFramebuffers | src/render/renderer.rs:267-274 | the retired swapchain is destroyed once, just before the last call, which creates the framebuffers from the new chain's views and extent with the resulting render pass |
| Renderer.ViewEventsKinds | src/render/objects/swapchain.rs:374-380 | building views only creates image views |
| Renderer.FramebufferDestroyEventsKinds | src/render/renderer.rs:253-255 | the framebuffer loop only destroys framebuffers |
| Renderer.DestroyEventsKinds | src/render/objects/swapchain.rs:291-300 | destroying a chain destroys its views and then the swapchain, nothing else |
| Renderer.RecreateAssembles | src/render/renderer.rs:230-275 | the calls of the steps of `recreate_swapchain`, put together, are the calls of the specification |
| Renderer.Renderer.constructor | src/render/renderer.rs:148-166 | the renderer holds the given swapchains, surface, render pass and framebuffers |
| Renderer.Renderer.RecreateSwapchain | src/render/renderer.rs:230-275 | fails (no call, no change) exactly when the surface has no format; otherwise makes exactly the specified calls and leaves the new chain current, the retired one destroyed, the render pass rebuilt per the nested ifs and the new framebuffers |
| Renderer.Renderer.WaitThenDestroyFramebuffers | src/render/renderer.rs:246-255 | the fence wait, then every framebuffer destroyed in order |
| Renderer.Renderer.RebuildDependents | src/render/renderer.rs:257-265 | the render pass is replaced only when both extent and format changed, and the calls are those of the nested ifs |
| Renderer.Renderer.CreateFramebuffersCall | src/render/renderer.rs:269-274 | one framebuffer creation from the current chain's views and extent |
| Renderer.Renderer.Drop | src/render/renderer.rs:287-307 | the calls are exactly the teardown sequence: device children, device, surface, debug utils when present, instance |
| Renderer.Renderer.DeviceTeardown | src/render/renderer.rs:290-298 | command pools, buffers, framebuffers, pipelines, descriptor sets, render pass, then the retired and the current chain |
| Renderer.DestroyFramebuffers | src/render/renderer.rs:253-255 | the loop destroys every framebuffer, in order |
| Renderer.DropOrder | src/render/renderer.rs:289-304 | the device is destroyed after every object created from it and before the surface; only objects it does not own follow it; the instance is destroyed last and only there |
| Renderer.TeardownTailOrder | src/render/renderer.rs:299-304 | after the device children come the device, the surface, the debug utils when present and the instance, in that order |
| Renderer.DeviceTeardownKinds | src/render/renderer.rs:290-298 | while the device is alive, `Drop` destroys only objects created from it |
| Renderer.DropDestroysDependents | src/render/renderer.rs:290-298 | every framebuffer, the render pass and the current swapchain are destroyed while the device is alive |
| Renderer.CheckValidationLayersSupport | src/render/renderer.rs:309-328 | Ok iff every requested layer is available; otherwise the error is the first requested layer, in order, that is missing |
| Utility.Sort | src/render/utility.rs:26 | the slice ends sorted ascending and is a permutation of what it held |
| Utility.InsertLast | src/render/utility.rs:26 | one insertion step extends the sorted prefix by one element and keeps the multiset of elements |
| Utility.SwapDown | src/render/utility.rs:26 | exactly the two neighbouring elements are exchanged; every other element and the multiset are unchanged |
| Utility.BinarySearch | src/render/utility.rs:28 | on a sorted slice, `Ok(i)` points at the item; `Err(p)` means the item is absent and `p` is its insertion point (everything before is smaller, everything from it on larger) |
| Utility.ContainsAll | src/render/utility.rs:22-33 | the slice is left sorted and a permutation of its old contents; the result is `Ok` exactly when no wanted item is missing from the original slice, and `Err` carries the first missing wanted item |
| Utility.FirstMissingNoneIff | src/render/utility.rs:27-32 | success holds exactly when every wanted item is available (so an empty wanted list always succeeds) |
| Utility.FirstMissingIsFirst | src/render/utility.rs:27-31 | a reported item is missing, and every wanted item before it is available |
| Utility.FirstMissingIgnoresOrder | src/render/utility.rs:26-31 | two slices with the same multiset of items give the same answer, so sorting before the lookups changes nothing |
| Utility.AsU8 | src/render/utility.rs:17 | `b as u8` is congruent to `b` modulo 256 and is 0 exactly for 0 |
| Utility.AsI8 | src/render/utility.rs:17 | the inverse of `b as u8` |
| Utility.CharWidth | src/render/utility.rs:19 | the width of the leading well-formed UTF-8 character is at most 4 and within the input |
| Utility.FromUtf8 | src/render/utility.rs:19 | `Ok` exactly for well-formed UTF-8, carrying the same bytes; the error hands back the bytes |
| Utility.I8ArrayToString | src/render/utility.rs:11-20 | the result is the UTF-8 check of the bytes before the first NUL |
| Utility.BeforeNulSpec | src/render/utility.rs:12-18 | the collected bytes are the `u8`s of the array's leading non-zero elements, stopping at a 0 or at the end |
| Utility.BeforeNulRoundTrip | src/render/utility.rs:12-18 | a NUL-free byte string written as `i8`s and terminated by 0 reads back unchanged, whatever follows |
| Utility.AsciiIsValidUtf8 | src/render/utility.rs:19 | ASCII names always pass the UTF-8 check |
| Utility.Utf8Rejects | src/render/utility.rs:19 | a lone continuation byte, a truncated sequence and an encoded surrogate are rejected; a two-byte character is accepted |
| PhysicalDevice.FindQueueFamilies | src/render/objects/physical_device.rs:69-89 | each of the three indices is the last family whose branch of the if/else-if chain selects that role |
| PhysicalDevice.LastWithRoleSpec | src/render/objects/physical_device.rs:69-89 | an index is found exactly when some family takes the role, and it is the last such family |
| PhysicalDevice.RolesAreDistinct | src/render/objects/physical_device.rs:82-88 | the graphics, compute and transfer indices found are pairwise different families |
| PhysicalDevice.GraphicsWithoutSurfaceCanBeCompute | src/render/objects/physical_device.rs:82-85 | a GRAPHICS and COMPUTE family without surface support is taken as the compute family |
| PhysicalDevice.CheckExtensionSupport | src/render/objects/physical_device.rs:169-189 | true exactly when every requested extension is among the device's extensions |
| PhysicalDevice.CheckSwapchainSupport | src/render/objects/physical_device.rs:191-203 | true exactly when the surface reports at least one format and at least one present mode |
| PhysicalDevice.SwapchainSupportSuffices | src/render/objects/physical_device.rs:191-203 | a device passing the swapchain check lets the swapchain choose a format and a present mode the surface offers (or FIFO) |
| PhysicalDevice.SelectFromPanics | src/render/objects/physical_device.rs:91-125 | the remaining chain panics exactly when one of the remaining devices panics |
| PhysicalDevice.SelectFromNothing | src/render/objects/physical_device.rs:68-126 | "no device available" is reported exactly when every device is filtered out or has no graphics family |
| PhysicalDevice.SelectFromOk | src/render/objects/physical_device.rs:108-126 | a successful chain returns the best candidate of all devices |
| PhysicalDevice.ImproveKeepsBest | src/render/objects/physical_device.rs:108-125 | one more non-panicking device keeps the best-so-far: smallest rank, first among equals |
| PhysicalDevice.SelectionErrors | src/render/objects/physical_device.rs:91-126 | the selection panics exactly when some device would (compute family missing or unknown device type), and reports no device exactly when every device is skipped |
| PhysicalDevice.SelectionIsFirstMinimum | src/render/objects/physical_device.rs:13-136 | the chosen device passes the filter, its indices are the last graphics, compute and transfer families found, and its rank is strictly smaller than every earlier candidate's and no larger than every later one's |
| Models.Unzip | src/render/models/mod.rs:37 | two lists as long as the input, holding each model's vertices and indices at its own position |
| Models.IntoProperties | src/render/models/mod.rs:55-67 | one entry per zipped pair of partitions (as many as the shorter side), each holding that pair's sizes and offsets after the `u32`/`i32` casts |
| Models.ThreeParts | src/render/models/mod.rs:32-39 | three chunks get partitions that start at 0 and each follow the previous one |
| Models.LoadOrder | src/render/models/mod.rs:27-53 | partition `SQUARE_INDEX`, `CUBE_INDEX` and `NIKO_INDEX` of both vectors lie inside the data and read back exactly that model's vertices and indices, in that order |
| Models.LoadedProperties | src/render/models/mod.rs:31-67 | when the sizes fit the casts, the properties are the three models' counts with running offsets |
| StaticScene.Load | src/static_scene.rs:16-24 | one square, no cubes, and the object count is the number of squares plus cubes |
| StaticScene.Objects | src/static_scene.rs:26-48 | the model indices are `SQUARE_INDEX` then `CUBE_INDEX` |
| StaticScene.ObjectsLayout | src/static_scene.rs:26-48 | two groups matching the two model indices: squares from 0, cubes right after; each group reads back its objects and the length is the object count |
| StaticScene.LoadedObjectCount | src/static_scene.rs:16-48 | for the loaded scene the flattened length equals `total_obj_count`, which is 1 |
| Vertices.AttributesOfType | src/render/objects/vertices/mod.rs:10-17 | every vertex type's attribute list has `attribute_size()` entries, well formed at the given start location and binding; its binding description has that binding and the type's stride |
| Vertices.EnumerateBindingDescriptions | src/render/objects/vertices/mod.rs:25-35 | one binding description per listed type, the k-th describing type k at binding k |
| Vertices.AsWrittenPlacements | src/render/objects/vertices/mod.rs:39-51 | the fold as written places one attribute list per listed type |
| Vertices.Placements | src/render/objects/vertices/mod.rs:39-51 | the intended fold places one attribute list per listed type |
| Vertices.EnumerateAttributeDescriptionsAsWritten | src/render/objects/vertices/mod.rs:39-51 | one attribute list per type, each the type's descriptions at its as-written placement |
| Vertices.EnumerateAttributeDescriptions | src/render/objects/vertices/mod.rs:39-51 | one attribute list per type, each the type's descriptions at its running-sum placement |
| Vertices.AsWrittenPlacementAt | src/render/objects/vertices/mod.rs:43-47 | as written, type k > 0 starts at the previous type's `attribute_size()` and uses binding k |
| Vertices.AsWrittenAt | src/render/objects/vertices/mod.rs:43-47 | the k-th as-written attribute list is type k's descriptions at that start location and binding k |
| Vertices.PlacementAt | src/render/objects/vertices/mod.rs:43-47 | with the running sum, type k starts at the total attribute size of the types before it and uses binding k |
| Vertices.EnumerateAt | src/render/objects/vertices/mod.rs:43-47 | the k-th attribute list is type k's descriptions at that running-sum location and binding k |
| Vertices.PipelineVertexInputStateAsWritten | src/render/objects/vertices/mod.rs:55-76 | the create info as the macro builds it: the binding count is the number of types and of bindings, the attribute count is the length of the flattened attribute lists, which are the as-written per-type lists concatenated in order |
| Vertices.PipelineVertexInputState | src/render/objects/vertices/mod.rs:55-76 | the corrected create info: the same counts, with the attribute lists of the running-sum fold concatenated in order |
| Vertices.DescribeWellFormed | src/render/objects/vertices/mod.rs:10-17 | each placed type has a non-empty, well-formed attribute list |
| Vertices.BindingsInOrder | src/render/objects/vertices/mod.rs:25-51 | the k-th binding description and every attribute of the k-th type use binding k, in both folds |
| Vertices.LocationsContiguous | src/render/objects/vertices/mod.rs:39-51 | with the running sum, type k's locations start right where type k-1's end: no gaps and no overlaps |
| Vertices.TotalAttributeSizeSnoc | src/render/objects/vertices/mod.rs:43-47 | the total attribute size of a list is that of all but its last type plus the last type's size |
| Vertices.AsWrittenAgreesUpToTwo | src/render/objects/vertices/mod.rs:39-51 | for at most two types the as-written fold and the running sum give the same attribute lists |
| Vertices.AsWrittenPipelineAgreesUpToTwo | src/render/objects/vertices/mod.rs:55-76 | for at most two types the create info the macro builds equals the corrected one |
| Vertices.GraphicsPipelineLayouts | src/render/objects/pipelines/graphics.rs:71-73 | for the create info as the macro builds it, the colour pipeline puts locations 0-1 on binding 0 and 2-5 on binding 1; the texture pipeline puts 0-2 on binding 0 and 3-6 on binding 1; both bind the vertex type first and the instance type second |
| Vertices.PipelineOfTwo | src/render/objects/vertices/mod.rs:55-76 | for two types the attributes are the first type's list at location 0 and binding 0, followed by the second's from the first's size at binding 1 |
| Vertices.TwoPlacements | src/render/objects/vertices/mod.rs:43-47 | for two types the second starts at the first type's attribute size, at binding 1 |
| Vertices.ConcatTwo | src/render/objects/vertices/mod.rs:61-63 | flattening two lists concatenates them |
| Vertices.AsWrittenOverlapsWithThreeTypes | src/render/objects/vertices/mod.rs:43-47 | with colour, texture and instance types the as-written fold gives the instance matrix location 3, which the texture vertex already uses; the running sum puts it at 5 |
| Color.BindingDescriptionFor | src/render/objects/vertices/color.rs:14-20 | per-vertex input at the given binding, with the `repr(C)` size of the two three-float fields as stride |
| Color.AttributeDescriptions | src/render/objects/vertices/color.rs:22-44 | `attribute_size()` entries at consecutive locations from the start on the given binding, three floats each, at the `repr(C)` offsets of position and color, each format as wide as its field |
| Tex.BindingDescriptionFor | src/render/objects/vertices/tex.rs:15-21 | per-vertex input at the given binding, with the `repr(C)` size of the three fields as stride |
| Tex.AttributeDescriptions | src/render/objects/vertices/tex.rs:23-51 | `attribute_size()` entries at consecutive locations: position and normal as three floats, texture coordinates as two, at the `repr(C)` offsets, each format as wide as its field |
| Instance.Floats | src/render/objects/vertices/instance.rs:7-14 | a matrix record is sixteen floats |
| Instance.Encode | src/render/objects/vertices/instance.rs:7-14 | one record occupies `size_of::<MatrixInstance>()` bytes |
| Instance.EncodeAll | src/render/objects/buffers/host_writable.rs:74 | a slice of records occupies its length times the record size |
| Instance.DecodeAll | src/render/objects/buffers/host_writable.rs:74 | reading records back gives one per record-sized chunk |
| Instance.EncodeRoundTrip | src/render/objects/vertices/instance.rs:16-22 | one record read back from its bytes is the same record; `new` keeps the matrix |
| Instance.EncodeAllRoundTrip | src/render/objects/buffers/host_writable.rs:74 | a slice of records copied as bytes reads back as the same slice |
| Instance.BindingDescriptionFor | src/render/objects/vertices/instance.rs:26-32 | per-instance input at the given binding, with a stride of four four-float columns |
| Instance.AttributeDescriptions | src/render/objects/vertices/instance.rs:34-68 | `attribute_size()` entries at consecutive locations on the binding, one four-float attribute per matrix column at the matrix offset plus the column offset |
| SquareInstance.New | src/render/objects/square_instance.rs:15-21 | keeps the position and size and zeroes the padding |
| SquareInstance.BindingDescriptionFor | src/render/objects/square_instance.rs:23-29 | per-instance input at the given binding, with the padded `repr(C)` size as stride |
| SquareInstance.AttributeDescriptions | src/render/objects/square_instance.rs:31-49 | two attributes at consecutive locations on the binding: the two-float position and the one-float size at their `repr(C)` offsets; the padding fills the rest of the stride |
| LegacyVertex.LegacyDescriptionsAgree | src/render/objects/vertex.rs:11-83 | the older descriptions of both vertex types equal those of the `Vertex` implementations, for every binding and start location, and are well formed |
| Scalars.F32Bytes | src/render/objects/buffers/host_writable.rs:74 | an `f32` occupies four bytes |
| Scalars.F32RoundTrip | src/render/objects/buffers/host_writable.rs:74 | the four bytes of an `f32` read back as the same bit pattern |
| Scalars.EncodeF32s | src/render/objects/vertices/instance.rs:10 | a run of `f32` values occupies four bytes each |
| Scalars.DecodeF32s | src/render/objects/vertices/instance.rs:10 | reading `f32` values back gives one per four bytes |
| Scalars.F32sRoundTrip | src/render/objects/vertices/instance.rs:10 | a run of `f32` values written as bytes reads back unchanged |
| Scalars.ReprCOffsets | src/render/objects/vertices/color.rs:6-11 | one offset per field of a `repr(C)` struct |
| Scalars.AsU32 | src/render/models/mod.rs:61-64 | `as u32` gives a value below 2^32 that is the input itself whenever it fits |
| Scalars.AsI32 | src/render/models/mod.rs:62 | `as i32` gives a value in the `i32` range, congruent to the input modulo 2^32, and the input itself whenever it fits |
| Keys.ToBool | src/keys.rs:36-43 | true exactly for a pressed key |
| Keys.Xor | src/keys.rs:19-25 | true exactly when the two states differ |
| Keys.FromElementState | src/keys.rs:27-34 | pressed exactly when the window system reports pressed |
| Keys.FieldOf | src/keys.rs:66-82 | the eleven tracked codes map to a field; exactly Escape and the untracked codes map to none |
| Keys.FieldOfInjective | src/keys.rs:68-79 | two codes that map to the same field are the same code |
| Keys.UpdatedSetsOneField | src/keys.rs:66-82 | an update sets the one field mapped to the code to the new state and leaves the other ten unchanged; an unmapped code changes nothing |
| Keys.Keys.constructor | src/keys.rs:45-64 | every tracked key starts released, the default state |
| Keys.Keys.UpdateFromEvent | src/keys.rs:66-82 | the record after the call is the old one with exactly the mapped field set |
| App.KeyEventCases | src/app.rs:24-43 | exit is requested exactly for Escape pressed; Space released appends the new square while fewer than the maximum are shown; every other case leaves the list unchanged |
| App.KeyEventBounded | src/app.rs:29-39 | one key event keeps the list within the maximum, grows it by at most one and keeps its prefix |
| App.KeyEventsBounded | src/app.rs:17-43 | from a valid list, no sequence of key events shows more than `MAX_SQUARE_AMMOUNT` squares, none empties it, and the first square stays first |
| App.App.constructor | src/app.rs:17-22 | one square at (-0.5, -0.5) of size 0.2, and a renderer sized for `MAX_SQUARE_AMMOUNT` squares |
| App.App.HandleKeyEvent | src/app.rs:24-43 | the new list and the exit answer are those of the key-event specification, with the random position and size as inputs, and the list stays within the maximum |
| App.App.HandleWindowResize | src/app.rs:45-47 | one resize call is forwarded to the renderer |
| App.App.RequestRedraw | src/app.rs:49-51 | one redraw request is forwarded to the renderer |
| App.App.RenderNextFrame | src/app.rs:53-55 | the renderer is asked to draw exactly the current squares |
| MainLoop.Elapsed | src/main.rs:89-90 | the time since the last frame; it is zero when the clock reads earlier (`Instant` subtraction saturates) |
| MainLoop.PauseRule | src/main.rs:36-67 | suspending or minimizing pauses, resuming or any other resize unpauses, and no other event changes the flag |
| MainLoop.ResizeForwarding | src/main.rs:58-67 | a zero-by-zero resize is not forwarded; any other resize is forwarded exactly once |
| MainLoop.RedrawGating | src/main.rs:87-93 | a redraw renders exactly when not paused, passing the time since the last frame, and only a rendered frame moves the last-frame instant |
| MainLoop.ExitRule | src/main.rs:45-86 | exit is requested by a close request or a key event the application answers with true, and stays requested; clearing the main events always asks for a redraw |
| MainLoop.PausedRendersNothing | src/main.rs:32-95 | while paused and with no event that unpauses, no frame is rendered and no resize is forwarded, however many redraws arrive, and the last-frame instant stays put |
| MainLoop.MainLoop.constructor | src/main.rs:32-34 | the loop starts unpaused, with no exit request and the clock read at start |
| MainLoop.MainLoop.HandleEvent | src/main.rs:35-95 | the new flags, instant and forwarded calls are those of the dispatch specification |

## Left out

- GPU semantics are not modelled. This covers fence signalling by the device, semaphore
  waits inside queues, queue execution order and command-buffer contents. Every driver call
  is an abstract event in a ghost log. The success answers of the driver (handles, memory
  requirements, surface answers, acquire and present results) are inputs; a driver call
  that panics on failure is taken to succeed, as the last line of this section lists.
- Floating point is not modelled. `f32` values are kept as their bit patterns. The
  random position and size of a new square, and the model matrix of the static square, are
  inputs. `src/render/camera.rs` and `src/render/renderable_3d.rs` (matrix and
  trigonometry code) are not part of this model.
- Extension and layer names are integer codes rather than strings, since only their
  equality and order matter to `contains_all`.
- `c_char_array_to_string` and `any_as_u8_slice` (unsafe raw-memory reads), and the
  `iter_into_array!` and `vec_to_array!` macros (`MaybeUninit`, `transmute`), are not
  part of this model.
- `SizesIter` in `src/structures/linear_2d_vec.rs` is not part of this model. It is unused
  by the core, and as written it skips the first partition and then reads past the end.
- `FPSCounter` and `GPULattency` in `src/render/sync.rs` are not part of this model. They
  only log, driven by the clock.
- The thin driver wrappers are not part of this model: `objects/instance.rs`,
  `logical_device.rs`, `debug_utils.rs`, `surface.rs`, `render_pass.rs`, `framebuffers.rs`,
  `pipelines/*.rs`, `descriptor_sets/*.rs`, `command_buffer_pools/*.rs` and `shaders/**`.
  Their creation and destruction appear only as events. This leaves out the compute
  dispatch count `instance_count / 64 + 1` in `command_buffer_pools/compute.rs`.
- `src/render/objects/buffers/local.rs` is not part of this model. It is one more
  `allocate_vk_buffers` call, and that allocator is modelled.
- `niko.rs`, `cube.rs`, `weird_square.rs` and `src/render/textures/*.rs` are not part of
  this model: model data comes from file I/O, OBJ/PNG decoding and constant tables. Each
  model's vertex and index lists are inputs of `Models.Load`.
- Logging, `println!` and `print_debug_info` are left out.
- `Renderer::new` is not modelled as a whole. `Renderer.Renderer.constructor` takes the
  objects it creates as inputs.
- The memory-type filter is the bitwise OR of the buffers' `memory_type_bits`, as the code
  computes it (`src/render/objects/buffers/mod.rs:84`), not the intersection a description
  of the allocator would suggest.
- `render_next_frame` does not wait on the current slot's fence when the recreate flag is
  set; it only hands the previous slot's fence to the recreation. The model follows the
  code.
- The render pass is rebuilt only when both the extent and the format changed, because
  the ifs are nested (`src/render/renderer.rs:257-261`). The model follows the code.
- The snapshot is mid-refactor, and several signatures disagree. Each file's own logic is
  modelled:
  - `main.rs` calls cursor and mouse handlers that `app.rs` lacks; they are recorded as
    forwarded calls.
  - `main.rs` passes the elapsed time to `render_next_frame`, which takes no argument in
    `app.rs`.
  - `Sync` records its calls of the renderer as abstract steps, since `sync.rs` and
    `renderer.rs` disagree on their signatures.
  - `INDEX_SRC_USAGE` and `VERTEX_SRC_USAGE` are imported but not defined; both are
    taken as transfer-source usage.
  - The `Vertex` type used by `local_constant.rs` and `models/mod.rs` does not resolve; it
    is taken as `ColorVertex`, whose stride gives the vertex buffer size.
  - `(&models)[model_i]` in `local_constant.rs:116` indexes the model data, which is not
    indexable as written; it is taken as partition `model_i` of the index and vertex
    lists (`LocalConstant.DrawOf`). An index past the last model, where that indexing
    would panic, is reported as the error `ModelIndexOutOfRange`.
- Linear2dVec.Index: requires `i < |v.parts|`; the source panics on an index past the
  last partition, and that panic is not modelled.
- HostWritable.HostWritableMemory.WriteInstance: requires `i < |instance|`; the source
  panics on a slot index past the last slot, and that panic is not modelled.
- HostWritable.HostWritableMemory.WriteInstance: the `map_memory` and `unmap_memory` calls
  around the copy, and the `.expect` on a failed map, are not logged; the method states
  only the bytes written into the mapped memory.
- HostWritable.HostWritableMemory.WriteInstance: requires `data.len() <= max_instances`.
  The source does not check this bound, and without it the copy overruns the slot's region.
- HostWritable.HostWritableMemory.Create: requires the driver to report each slot buffer at
  least as large as its create info asked for.
- The debug assertions of `allocate_vk_buffers` on power-of-two alignments are modelled as
  an error result. The one in the `clamp` crate (`min <= max`) is not; `Swapchain.ExtentRule`
  states the range bound only for a non-empty range.
- Integer widths are unbounded except where the source casts: `as u32` and `as i32` in
  `into_properties` are modelled, while other `u32`/`u64` arithmetic is taken not to overflow.
- `ControlFlow::Exit` is modelled as a flag; the event loop stopping after it is not.
- The getters `Swapchain.Swapchains.Format`, `Extent` and `ImageViews`,
  `LocalConstant.VertexBuffer` and `IndexBuffer`, and
  `HostWritable.HostWritableMemory.InstanceBuffer` are modelled as plain reads, without
  postconditions of their own.
- Every driver call that the source ends in `.expect` or `.unwrap` is taken to succeed;
  its failure, a panic, has no input in the model. Only the error paths the source handles
  itself (a plan error, a missing format, the acquire and present results, an
  out-of-range model index) are modelled. The calls taken to succeed are:
  - queries: device and extension enumeration, surface support, capabilities, formats and
    present modes;
  - creation: buffers of non-zero size (`src/render/objects/buffers/mod.rs:218` and
    `243`), the copy fence (`src/render/objects/buffers/local_constant.rs:179`), the
    frame semaphores and fences (`src/render/sync.rs:35-57`), the swapchain, its images
    and image views (`src/render/objects/swapchain.rs:182`, `188`, `259`, `265` and
    `407`), framebuffers, the render pass, pipelines, command pools and descriptor sets;
  - memory: `allocate_memory` and `bind_buffer_memory`
    (`src/render/objects/buffers/mod.rs:118` and `124`), and `map_memory` in
    `local_constant.rs` and `host_writable.rs`;
  - work and synchronisation: the copy submit and its fence wait
    (`src/render/objects/buffers/local_constant.rs:207-208`), the frame's fence wait
    (`src/render/sync.rs:202`), fence reset (`src/render/sync.rs:213`) and both queue
    submits (`src/render/sync.rs:297` and `339`), `device_wait_idle`
    (`src/render/sync.rs:68`), the recreation's fence wait
    (`src/render/renderer.rs:250`), and command-buffer reset, begin and end.
  Hence `Buffers.AllocateVkBuffers` and `LocalConstant.AllocatePair` fail only on a plan
  error, and `Sync.SyncRender.Initialize`, `RenderNextFrame` and `Drop` and
  `Swapchain.Build` fail only where the source inspects a result.

## Findings

| source | as written | input that shows it | evidently intended | confidence | as-written member | corrected member |
|---|---|---|---|---|---|---|
| src/render/objects/vertices/mod.rs:43-49 | `enumerate_attribute_descriptions!` starts each type after the first at the previous type's `attribute_size()`, not at the running sum of the sizes before it | the types `ColorVertex, TexVertex, MatrixInstance`: the matrix starts at location 3, which the texture vertex already uses (its locations are 2-4) | each type starts at the running sum of the earlier attribute sizes, so location ranges neither overlap nor leave gaps; both call sites list two types, where the two agree | not executed | Vertices.EnumerateAttributeDescriptionsAsWritten, used by Vertices.PipelineVertexInputStateAsWritten (shown by Vertices.AsWrittenOverlapsWithThreeTypes) | Vertices.EnumerateAttributeDescriptions, used by Vertices.PipelineVertexInputState (proved by Vertices.LocationsContiguous) |
