/** The swapchain manager (src/render/objects/swapchain.rs): the chain in use, the chain
    retired by the last recreation and still waiting to be destroyed, and the choices of
    format, present mode, extent and image count made from the surface queries of the
    Window System Integration chapter of the Vulkan specification ("Surface Queries").
    What the surface queries and the driver answer is passed in. */
module Swapchain {
  import opened Wrappers
  import opened Scalars
  import opened Vk

  /** `ENABLE_VSYNC` (src/main.rs). */
  const ENABLE_VSYNC: bool := true

  /** `VkSurfaceFormatKHR`. */
  datatype SurfaceFormat = SurfaceFormat(format: Format, colorSpace: ColorSpace)

  /** The fields of `VkSurfaceCapabilitiesKHR` the manager reads. */
  datatype SurfaceCapabilities = SurfaceCapabilities(
    minImageCount: nat,
    maxImageCount: nat,
    currentExtent: Extent2D,
    minImageExtent: Extent2D,
    maxImageExtent: Extent2D)

  /** What the three surface queries answer: capabilities, formats and present modes. */
  datatype SurfaceInfo = SurfaceInfo(capabilities: SurfaceCapabilities, formats: seq<SurfaceFormat>, presentModes: seq<PresentMode>)

  /** What the driver answers while a chain is built: the swapchain handle, its images and
      one view per image. */
  datatype ChainHandles = ChainHandles(swapchain: Handle, images: seq<Handle>, views: seq<Handle>)

  /** `Swapchain`: one generation of presentable images. */
  datatype SwapchainGen = SwapchainGen(obj: Handle, images: seq<Handle>, format: Format, extent: Extent2D, imageViews: seq<Handle>)

  /** `RecreationChanges`: whether the format and the extent differ from the previous
      generation's. */
  datatype RecreationChanges = RecreationChanges(format: bool, extent: bool)

  /** `formats[0]` panics when the surface reports no format. */
  datatype SwapchainError = NoSurfaceFormat

  // ---------------------------------------------------------------------------
  // Surface format

  predicate IsPreferredFormat(f: SurfaceFormat)
  {
    f.format == FORMAT_B8G8R8A8_SRGB && f.colorSpace == COLOR_SPACE_SRGB_NONLINEAR
  }

  /** The first preferred format of the list, if any. */
  function FirstPreferred(formats: seq<SurfaceFormat>): Option<SurfaceFormat>
  {
    if formats == [] then None
    else if IsPreferredFormat(formats[0]) then Some(formats[0])
    else FirstPreferred(formats[1..])
  }

  /** What `select_swapchain_image_format` returns; `None` is the panic on an empty list. */
  function SelectedFormat(formats: seq<SurfaceFormat>): Option<SurfaceFormat>
  {
    if formats == [] then None
    else if FirstPreferred(formats).Some? then FirstPreferred(formats)
    else Some(formats[0])
  }

  /** `select_swapchain_image_format`: returns the first B8G8R8A8_SRGB / SRGB_NONLINEAR
      entry, else the first entry. */
  method SelectSwapchainImageFormat(formats: seq<SurfaceFormat>) returns (r: Option<SurfaceFormat>)
    ensures r == SelectedFormat(formats)
  {
    for k := 0 to |formats|
      invariant FirstPreferred(formats) == FirstPreferred(formats[k..])
    {
      assert formats[k..][1..] == formats[k + 1..];
      if formats[k].format == FORMAT_B8G8R8A8_SRGB && formats[k].colorSpace == COLOR_SPACE_SRGB_NONLINEAR {
        return Some(formats[k]);
      }
    }
    if formats == [] {
      return None;
    }
    return Some(formats[0]);
  }

  /** The chosen format is the first preferred entry when there is one, otherwise the
      first entry; there is a choice exactly when the list is not empty. */
  lemma {:induction false} SelectedFormatSpec(formats: seq<SurfaceFormat>)
    ensures SelectedFormat(formats).None? <==> formats == []
    ensures SelectedFormat(formats).Some? ==> exists i ::
      && 0 <= i < |formats|
      && SelectedFormat(formats).value == formats[i]
      && (forall j :: 0 <= j < i ==> !IsPreferredFormat(formats[j]))
      && (IsPreferredFormat(formats[i]) || (i == 0 && forall j :: 0 <= j < |formats| ==> !IsPreferredFormat(formats[j])))
  {
    if formats != [] {
      FirstPreferredSpec(formats);
    }
  }

  lemma {:induction false} FirstPreferredSpec(formats: seq<SurfaceFormat>)
    ensures FirstPreferred(formats).None? <==> forall j :: 0 <= j < |formats| ==> !IsPreferredFormat(formats[j])
    ensures FirstPreferred(formats).Some? ==> exists i ::
      && 0 <= i < |formats|
      && FirstPreferred(formats).value == formats[i]
      && IsPreferredFormat(formats[i])
      && forall j :: 0 <= j < i ==> !IsPreferredFormat(formats[j])
  {
    if formats != [] && !IsPreferredFormat(formats[0]) {
      var rest := formats[1..];
      FirstPreferredSpec(rest);
      assert forall j :: 1 <= j < |formats| ==> formats[j] == rest[j - 1];
      if FirstPreferred(rest).Some? {
        var i :| 0 <= i < |rest| && FirstPreferred(rest).value == rest[i] && IsPreferredFormat(rest[i])
          && forall j :: 0 <= j < i ==> !IsPreferredFormat(rest[j]);
        assert formats[i + 1] == rest[i];
        assert forall j :: 0 <= j < i + 1 ==> !IsPreferredFormat(formats[j]);
      }
    } else if formats != [] {
      assert IsPreferredFormat(formats[0]);
    }
  }

  // ---------------------------------------------------------------------------
  // Present mode

  /** `select_swapchain_present_mode`: with `vsync` (the `ENABLE_VSYNC` branch),
      IMMEDIATE, then FIFO_RELAXED; then MAILBOX; FIFO, which every surface supports,
      is the fallback. */
  function SelectPresentMode(modes: seq<PresentMode>, vsync: bool): PresentMode
  {
    if vsync && Immediate in modes then Immediate
    else if vsync && FifoRelaxed in modes then FifoRelaxed
    else if Mailbox in modes then Mailbox
    else Fifo
  }

  /** The preference order of the selection: smaller is preferred; modes the selection
      never picks rank last. */
  function PresentModeRank(m: PresentMode, vsync: bool): nat
  {
    match m
    case Immediate => if vsync then 0 else 4
    case FifoRelaxed => if vsync then 1 else 4
    case Mailbox => 2
    case Fifo => 3
    case OtherPresentMode(_) => 4
  }

  /** The selected mode is available (or is the FIFO fallback) and no available mode is
      preferred to it. */
  lemma PresentModeIsMostPreferred(modes: seq<PresentMode>, vsync: bool)
    ensures var r := SelectPresentMode(modes, vsync);
      && (r in modes || r == Fifo)
      && forall m :: m in modes ==> PresentModeRank(r, vsync) <= PresentModeRank(m, vsync)
  {
    var r := SelectPresentMode(modes, vsync);
    forall m | m in modes
      ensures PresentModeRank(r, vsync) <= PresentModeRank(m, vsync)
    {
      match m
      case Immediate =>
      case FifoRelaxed =>
      case Mailbox =>
      case Fifo =>
      case OtherPresentMode(_) =>
    }
  }

  // ---------------------------------------------------------------------------
  // Extent and image count

  /** `num::clamp(x, lo, hi)`. */
  function Clamp(x: nat, lo: nat, hi: nat): nat
  {
    if x < lo then lo else if x > hi then hi else x
  }

  /** `get_swapchain_extent`: the surface's current extent, unless its width is the
      `u32::MAX` sentinel, in which case each window dimension is clamped to the
      surface's image-extent range. */
  function SwapchainExtent(caps: SurfaceCapabilities, window: Extent2D): Extent2D
  {
    if caps.currentExtent.width != U32_MAX then caps.currentExtent
    else Extent2D(Clamp(window.width, caps.minImageExtent.width, caps.maxImageExtent.width),
                  Clamp(window.height, caps.minImageExtent.height, caps.maxImageExtent.height))
  }

  /** A fixed current extent is used as is; with the sentinel, each dimension lies in the
      surface's range (when the range is not empty) and is the window's own dimension
      whenever that one already lies in it. */
  lemma ExtentRule(caps: SurfaceCapabilities, window: Extent2D)
    ensures caps.currentExtent.width != U32_MAX ==> SwapchainExtent(caps, window) == caps.currentExtent
    ensures caps.currentExtent.width == U32_MAX ==>
      var e := SwapchainExtent(caps, window);
      && (caps.minImageExtent.width <= caps.maxImageExtent.width ==>
            caps.minImageExtent.width <= e.width <= caps.maxImageExtent.width)
      && (caps.minImageExtent.height <= caps.maxImageExtent.height ==>
            caps.minImageExtent.height <= e.height <= caps.maxImageExtent.height)
      && (caps.minImageExtent.width <= window.width <= caps.maxImageExtent.width ==> e.width == window.width)
      && (caps.minImageExtent.height <= window.height <= caps.maxImageExtent.height ==> e.height == window.height)
  {
  }

  /** The image count asked for: one more than the minimum, capped by the maximum unless
      the maximum is 0 ("no limit"). */
  function ImageCount(caps: SurfaceCapabilities): (r: nat)
    ensures r <= caps.minImageCount + 1
    ensures caps.maxImageCount > 0 ==> r <= caps.maxImageCount
    ensures caps.maxImageCount == 0 || caps.minImageCount + 1 <= caps.maxImageCount ==> r == caps.minImageCount + 1
    ensures caps.maxImageCount > 0 && caps.maxImageCount < caps.minImageCount + 1 ==> r == caps.maxImageCount
  {
    if caps.maxImageCount > 0 then
      if caps.minImageCount + 1 < caps.maxImageCount then caps.minImageCount + 1 else caps.maxImageCount
    else caps.minImageCount + 1
  }

  // ---------------------------------------------------------------------------
  // Building a generation

  /** The create info of `create` (with a null `old_swapchain`) and `recreate` (naming
      the chain being replaced); `None` when the surface has no format. */
  function CreateInfo(s: SurfaceInfo, window: Extent2D, oldSwapchain: Handle): Option<SwapchainCreateInfo>
  {
    match SelectedFormat(s.formats)
    case None => None
    case Some(f) =>
      Some(SwapchainCreateInfo(ImageCount(s.capabilities), f.format, f.colorSpace,
                               SwapchainExtent(s.capabilities, window),
                               SelectPresentMode(s.presentModes, ENABLE_VSYNC), oldSwapchain))
  }

  /** One `create_image_view` per image, in order, with the chain's format. */
  function ViewEvents(images: seq<Handle>, format: Format, views: seq<Handle>): (r: seq<Event>)
    requires |views| == |images|
    ensures |r| == |images|
    ensures forall i :: 0 <= i < |images| ==> r[i] == CreateImageView(images[i], format, views[i])
  {
    if images == [] then []
    else ViewEvents(images[..|images| - 1], format, views[..|images| - 1])
         + [CreateImageView(images[|images| - 1], format, views[|images| - 1])]
  }

  /** The calls that build one generation: the swapchain, the image query, the views. */
  function BuildEvents(info: SwapchainCreateInfo, h: ChainHandles): seq<Event>
    requires |h.views| == |h.images|
  {
    [CreateSwapchain(info, h.swapchain), GetSwapchainImages(h.swapchain, h.images)]
    + ViewEvents(h.images, info.imageFormat, h.views)
  }

  /** The generation built from a create info and the driver's answers. */
  function GenOf(info: SwapchainCreateInfo, h: ChainHandles): SwapchainGen
  {
    SwapchainGen(h.swapchain, h.images, info.imageFormat, info.imageExtent, h.views)
  }

  /** The calls that destroy one generation: its views, then the swapchain. */
  function DestroyEvents(g: SwapchainGen): (r: seq<Event>)
    ensures |r| == |g.imageViews| + 1 && r[|r| - 1] == DestroySwapchain(g.obj)
    ensures forall i :: 0 <= i < |g.imageViews| ==> r[i] == DestroyImageView(g.imageViews[i])
  {
    seq(|g.imageViews|, i requires 0 <= i < |g.imageViews| => DestroyImageView(g.imageViews[i])) + [DestroySwapchain(g.obj)]
  }

  /** `create_image_views`. */
  method CreateImageViews(device: Device, images: seq<Handle>, format: Format, views: seq<Handle>)
    requires |views| == |images|
    modifies device
    ensures device.log == old(device.log) + ViewEvents(images, format, views)
  {
    ghost var start := device.log;
    for k := 0 to |images|
      invariant device.log == start + ViewEvents(images[..k], format, views[..k])
    {
      device.Call(CreateImageView(images[k], format, views[k]));
      assert images[..k + 1][..k] == images[..k];
      assert views[..k + 1][..k] == views[..k];
    }
    assert images[..|images|] == images;
    assert views[..|images|] == views;
  }

  /** The body shared by `Swapchain::create` and `Swapchain::recreate`: queries, choices,
      the create call, the image query and the views. */
  method Build(device: Device, s: SurfaceInfo, window: Extent2D, oldSwapchain: Handle, h: ChainHandles)
    returns (r: Result<SwapchainGen, SwapchainError>)
    requires |h.views| == |h.images|
    modifies device
    ensures r.Err? <==> CreateInfo(s, window, oldSwapchain).None?
    ensures r.Err? ==> device.log == old(device.log)
    ensures r.Ok? ==>
      var info := CreateInfo(s, window, oldSwapchain).value;
      && r.value == GenOf(info, h)
      && device.log == old(device.log) + BuildEvents(info, h)
  {
    var imageFormat := SelectSwapchainImageFormat(s.formats);
    if imageFormat.None? {
      return Err(NoSurfaceFormat);
    }
    var presentMode := SelectPresentMode(s.presentModes, ENABLE_VSYNC);
    var extent := SwapchainExtent(s.capabilities, window);
    var imageCount := ImageCount(s.capabilities);
    var info := SwapchainCreateInfo(imageCount, imageFormat.value.format, imageFormat.value.colorSpace,
                                    extent, presentMode, oldSwapchain);
    ghost var start := device.log;
    device.Call(CreateSwapchain(info, h.swapchain));
    device.Call(GetSwapchainImages(h.swapchain, h.images));
    ghost var created := device.log;
    CreateImageViews(device, h.images, info.imageFormat, h.views);
    assert created == start + [CreateSwapchain(info, h.swapchain), GetSwapchainImages(h.swapchain, h.images)];
    r := Ok(GenOf(info, h));
  }

  /** `RecreationChanges` between a generation and the format and extent chosen for the
      next one. */
  function Changes(g: SwapchainGen, format: Format, extent: Extent2D): RecreationChanges
  {
    RecreationChanges(format != g.format, extent != g.extent)
  }

  /** A generation built from the same surface answers and window size as a recreation
      reports no change: neither the format nor the extent flag is set. */
  lemma UnchangedSurfaceNoChanges(s: SurfaceInfo, window: Extent2D, oldSwapchain: Handle, h: ChainHandles,
                                  g: SwapchainGen)
    requires CreateInfo(s, window, oldSwapchain).Some?
    requires g == GenOf(CreateInfo(s, window, oldSwapchain).value, h)
    ensures var info := CreateInfo(s, window, g.obj).value;
      Changes(g, info.imageFormat, info.imageExtent) == RecreationChanges(false, false)
  {
  }

  /** The changes are set exactly for what differs. */
  lemma ChangesIff(g: SwapchainGen, format: Format, extent: Extent2D)
    ensures Changes(g, format, extent).format <==> format != g.format
    ensures Changes(g, format, extent).extent <==> extent != g.extent
    ensures Changes(g, format, extent) == RecreationChanges(false, false) <==> format == g.format && extent == g.extent
  {
  }

  // ---------------------------------------------------------------------------
  // The manager

  /** `Swapchains`: the chain in use and the chain retired by the last recreation. */
  class Swapchains {
    var current: SwapchainGen
    /** The field `old`: the retired chain, waiting to be destroyed. */
    var retired: Option<SwapchainGen>

    constructor (current: SwapchainGen)
      ensures this.current == current && retired == None
    {
      this.current := current;
      retired := None;
    }

    /** `Swapchains::new`: builds the first chain with a null `old_swapchain`; nothing is
        retired. */
    static method New(device: Device, s: SurfaceInfo, window: Extent2D, h: ChainHandles)
      returns (r: Result<Swapchains, SwapchainError>)
      requires |h.views| == |h.images|
      modifies device
      ensures r.Err? <==> s.formats == []
      ensures r.Ok? ==>
        var info := CreateInfo(s, window, NullHandle).value;
        && fresh(r.value)
        && info.oldSwapchain == NullHandle
        && r.value.current == GenOf(info, h) && r.value.retired == None
        && device.log == old(device.log) + BuildEvents(info, h)
    {
      SelectedFormatSpec(s.formats);
      var g := Build(device, s, window, NullHandle, h);
      if g.Err? {
        return Err(g.error);
      }
      var sc := new Swapchains(g.value);
      r := Ok(sc);
    }

    /** `recreate_swapchain` (with `Swapchain::recreate`): builds the new chain naming the
        current one as `old_swapchain`, swaps it in, and parks the previous chain as
        retired. The changes compare the new format and extent with the previous ones. */
    method RecreateSwapchain(device: Device, s: SurfaceInfo, window: Extent2D, h: ChainHandles)
      returns (r: Result<RecreationChanges, SwapchainError>)
      requires |h.views| == |h.images|
      modifies this, device
      ensures r.Err? <==> s.formats == []
      ensures r.Err? ==> current == old(current) && retired == old(retired) && device.log == old(device.log)
      ensures r.Ok? ==>
        var info := CreateInfo(s, window, old(current).obj).value;
        && info.oldSwapchain == old(current).obj
        && current == GenOf(info, h)
        && retired == Some(old(current))
        && r.value == Changes(old(current), info.imageFormat, info.imageExtent)
        && device.log == old(device.log) + BuildEvents(info, h)
    {
      SelectedFormatSpec(s.formats);
      var g := Build(device, s, window, current.obj, h);
      if g.Err? {
        return Err(g.error);
      }
      var changes := Changes(current, g.value.format, g.value.extent);
      var previous := current;
      current := g.value;
      retired := Some(previous);
      r := Ok(changes);
    }

    /** `destroy_old`: destroys the retired chain, if any, and forgets it; with nothing
        retired it does nothing, so a second call is a no-op. */
    method DestroyOld(device: Device)
      modifies this, device
      ensures current == old(current) && retired == None
      ensures device.log == old(device.log) + (if old(retired).Some? then DestroyEvents(old(retired).value) else [])
    {
      if retired.Some? {
        DestroyChain(device, retired.value);
        retired := None;
      }
    }

    /** `destroy_self`: the retired chain first, then the current one. */
    method DestroySelf(device: Device)
      modifies this, device
      ensures retired == None
      ensures device.log == old(device.log)
        + (if old(retired).Some? then DestroyEvents(old(retired).value) else [])
        + DestroyEvents(old(current))
    {
      DestroyOld(device);
      DestroyChain(device, current);
    }

    /** `get_format`, `get_extent` and `get_image_views` report the current chain. */
    function Format(): Format
      reads this
    {
      current.format
    }

    function Extent(): Extent2D
      reads this
    {
      current.extent
    }

    function ImageViews(): seq<Handle>
      reads this
    {
      current.imageViews
    }
  }

  /** `Swapchain::destroy_self`: every view, then the swapchain. */
  method DestroyChain(device: Device, g: SwapchainGen)
    modifies device
    ensures device.log == old(device.log) + DestroyEvents(g)
  {
    ghost var start := device.log;
    for k := 0 to |g.imageViews|
      invariant device.log == start + DestroyEvents(g)[..k]
    {
      device.Call(DestroyImageView(g.imageViews[k]));
      assert DestroyEvents(g)[..k + 1] == DestroyEvents(g)[..k] + [DestroyImageView(g.imageViews[k])];
    }
    device.Call(DestroySwapchain(g.obj));
    assert DestroyEvents(g) == DestroyEvents(g)[..|g.imageViews|] + [DestroySwapchain(g.obj)];
  }
}
