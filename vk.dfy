/** The part of the explicit graphics API that the renderer core talks to, reduced to
    values. Driver objects are opaque handles; every call the core makes into the driver
    is recorded as an `Event` in the ghost `log` of a `Device`. What the driver answers
    (new handles, surface queries, acquire and present results) is passed in by the
    caller of each modelled operation. Numeric constants are those of the Vulkan API. */
module Vk {

  /** `FRAMES_IN_FLIGHT` (src/render/sync.rs:15): the number of frame slots, and of
      per-slot instance buffers. */
  const FRAMES_IN_FLIGHT: nat := 2

  /** An opaque driver object (`VkBuffer`, `VkFence`, ...); `NullHandle` is `VK_NULL_HANDLE`. */
  datatype Handle = NullHandle | Handle(id: nat)

  type Format = int
  const FORMAT_B8G8R8A8_SRGB: Format := 50
  const FORMAT_R32_SFLOAT: Format := 100
  const FORMAT_R32G32_SFLOAT: Format := 103
  const FORMAT_R32G32B32_SFLOAT: Format := 106
  const FORMAT_R32G32B32A32_SFLOAT: Format := 109

  /** Bytes taken by one attribute of the given format (only the 32-bit float formats the
      core uses have a size here). */
  function FormatSize(f: Format): nat
  {
    if f == FORMAT_R32_SFLOAT then 4
    else if f == FORMAT_R32G32_SFLOAT then 8
    else if f == FORMAT_R32G32B32_SFLOAT then 12
    else if f == FORMAT_R32G32B32A32_SFLOAT then 16
    else 0
  }

  type ColorSpace = int
  const COLOR_SPACE_SRGB_NONLINEAR: ColorSpace := 0

  datatype PresentMode = Immediate | Mailbox | Fifo | FifoRelaxed | OtherPresentMode(code: int)

  datatype Extent2D = Extent2D(width: nat, height: nat)

  /** Pipeline stages a semaphore wait can block. */
  datatype PipelineStage = ColorAttachmentOutput | VertexInput

  datatype SemaphoreWait = SemaphoreWait(semaphore: Handle, stage: PipelineStage)

  datatype Queue = GraphicsQueue | ComputeQueue | TransferQueue

  /** The command buffers the core submits: the per-slot main (graphics) and instance
      compute buffers, and the one-shot copy buffer of the transfer pool. */
  datatype CommandBuffer = MainCommandBuffer(slot: nat) | ComputeCommandBuffer(slot: nat) | CopyCommandBuffer

  /** A Vulkan flag word (`VkBufferUsageFlags`, `VkMemoryPropertyFlags`, `VkQueueFlags`,
      a memory-type bit mask), represented by the positions of its set bits: `|` is
      union, `&` is intersection, `contains` is inclusion and `x & (1 << i) > 0` is
      membership of i. */
  type Flags = set<nat>

  // Buffer usage bits (VkBufferUsageFlagBits): 0x1, 0x2, 0x20, 0x40, 0x80.
  const BUFFER_USAGE_TRANSFER_SRC: Flags := {0}
  const BUFFER_USAGE_TRANSFER_DST: Flags := {1}
  const BUFFER_USAGE_STORAGE_BUFFER: Flags := {5}
  const BUFFER_USAGE_INDEX_BUFFER: Flags := {6}
  const BUFFER_USAGE_VERTEX_BUFFER: Flags := {7}

  // Memory property bits (VkMemoryPropertyFlagBits): 0x1, 0x2, 0x4.
  const MEMORY_PROPERTY_DEVICE_LOCAL: Flags := {0}
  const MEMORY_PROPERTY_HOST_VISIBLE: Flags := {1}
  const MEMORY_PROPERTY_HOST_COHERENT: Flags := {2}

  // Queue capability bits (VkQueueFlagBits): 0x1, 0x2, 0x4.
  const QUEUE_GRAPHICS: Flags := {0}
  const QUEUE_COMPUTE: Flags := {1}
  const QUEUE_TRANSFER: Flags := {2}

  /** `VkVertexInputRate`. */
  datatype VertexInputRate = VertexRate | InstanceRate

  /** `VkVertexInputBindingDescription`. */
  datatype BindingDescription = BindingDescription(binding: nat, stride: nat, inputRate: VertexInputRate)

  /** `VkVertexInputAttributeDescription`. */
  datatype AttributeDescription = AttributeDescription(location: nat, binding: nat, format: Format, offset: nat)

  /** The attribute list of one binding is well formed: consecutive locations from
      `start`, all on `binding`, each attribute inside one element of `stride` bytes, and
      attributes listed in increasing, non-overlapping byte ranges. */
  predicate WellFormedAttributes(attrs: seq<AttributeDescription>, start: nat, binding: nat, stride: nat)
  {
    && (forall k :: 0 <= k < |attrs| ==>
          && attrs[k].location == start + k
          && attrs[k].binding == binding
          && FormatSize(attrs[k].format) > 0
          && attrs[k].offset + FormatSize(attrs[k].format) <= stride)
    && (forall j, k :: 0 <= j < k < |attrs| ==> attrs[j].offset + FormatSize(attrs[j].format) <= attrs[k].offset)
  }

  datatype SharingMode = Exclusive | Concurrent

  /** The fields of `VkBufferCreateInfo` that the core fills in. */
  datatype BufferCreateInfo = BufferCreateInfo(
    size: nat,
    usage: Flags,
    sharingMode: SharingMode,
    queueFamilyIndexCount: nat,
    queueFamilyIndices: seq<nat>)

  /** The fields of `VkSwapchainCreateInfoKHR` that the core computes. */
  datatype SwapchainCreateInfo = SwapchainCreateInfo(
    minImageCount: nat,
    imageFormat: Format,
    imageColorSpace: ColorSpace,
    imageExtent: Extent2D,
    presentMode: PresentMode,
    oldSwapchain: Handle)

  datatype BufferCopy = BufferCopy(srcOffset: nat, dstOffset: nat, size: nat)

  datatype CopyBufferOperation = CopyBufferOperation(source: Handle, dest: Handle, regions: seq<BufferCopy>)

  /** One call from the core into the driver (or into a thin wrapper module that only
      forwards to the driver). */
  datatype Event =
    // synchronisation objects
    | CreateSemaphore(semaphore: Handle)
    | CreateFence(fence: Handle, signaled: bool)
    | DestroySemaphore(semaphore: Handle)
    | DestroyFence(fence: Handle)
    | WaitForFence(fence: Handle)
    | ResetFence(fence: Handle)
    | DeviceWaitIdle
    // buffers and device memory
    | CreateBuffer(info: BufferCreateInfo, buffer: Handle)
    | AllocateMemory(size: nat, memoryType: nat, memory: Handle)
    | BindBufferMemory(buffer: Handle, memory: Handle, offset: nat)
    | CopyIntoMemory(memory: Handle, offset: nat, size: nat)
    | DestroyBuffer(buffer: Handle)
    | FreeMemory(memory: Handle)
    | RecordCopyBuffers(operations: seq<CopyBufferOperation>)
    // swapchain
    | CreateSwapchain(swapchainInfo: SwapchainCreateInfo, swapchain: Handle)
    | GetSwapchainImages(swapchain: Handle, images: seq<Handle>)
    | CreateImageView(image: Handle, format: Format, view: Handle)
    | DestroyImageView(view: Handle)
    | DestroySwapchain(swapchain: Handle)
    | AcquireNextImage(semaphore: Handle)
    | QueuePresent(imageIndex: nat, presentWaits: seq<Handle>)
    // objects that depend on the swapchain
    | DestroyFramebuffer(framebuffer: Handle)
    | CreateFramebuffers(renderPass: Handle, views: seq<Handle>, extent: Extent2D, framebuffers: seq<Handle>)
    | DestroyRenderPass(renderPass: Handle)
    | CreateRenderPass(format: Format, renderPass: Handle)
    | RecreateMainPipelines(extent: Extent2D, renderPass: Handle)
    // per-frame work
    | RecordMainCommandBuffer(slot: nat, framebufferIndex: nat, instanceCount: nat)
    | UpdateInstanceComputeDescriptorSet(slot: nat, instanceCount: nat)
    | UpdateInstanceData(slot: nat, instanceCount: nat)
    | RecordInstanceComputeCommandBuffer(slot: nat, instanceCount: nat)
    | QueueSubmit(queue: Queue, waits: seq<SemaphoreWait>, commandBuffer: CommandBuffer, signals: seq<Handle>, signalFence: Handle)
    // renderer teardown
    | DestroyCommandPools
    | DestroyBuffers
    | DestroyPipelines
    | DestroyDescriptorSets
    | DestroyDevice
    | DestroySurface(surface: Handle)
    | DestroyDebugUtils
    | DestroyInstance

  /** The logical device (`ash::Device`). It only records the calls made on it. */
  class Device {
    ghost var log: seq<Event>

    constructor ()
      ensures log == []
    {
      log := [];
    }

    /** Issues one driver call. */
    method Call(e: Event)
      modifies this
      ensures log == old(log) + [e]
    {
      log := log + [e];
    }
  }
}
