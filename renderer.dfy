/** The renderer's swapchain-dependent state and its lifecycle (src/render/renderer.rs):
    rebuilding the framebuffers, the render pass and the main pipelines when the chain is
    recreated, the teardown order of `Drop`, and the validation-layer check. */
module Renderer {
  import opened Wrappers
  import opened Vk
  import opened Swapchain
  import opened Utility

  /** What the driver and the window answer during one recreation: the surface queries,
      the window's inner size, the new chain's handles, the render pass a rebuild would
      create, and the new framebuffers. */
  datatype RecreateAnswers = RecreateAnswers(
    surface: SurfaceInfo,
    window: Extent2D,
    chain: ChainHandles,
    renderPass: Handle,
    framebuffers: seq<Handle>)

  /** The swapchain-dependent part of a `Renderer`: the chain in use, the render pass and
      the framebuffers. */
  datatype RendererState = RendererState(current: SwapchainGen, renderPass: Handle, framebuffers: seq<Handle>)

  /** One `destroy_framebuffer` per framebuffer, in order. */
  function FramebufferDestroyEvents(fbs: seq<Handle>): (r: seq<Event>)
    ensures |r| == |fbs|
    ensures forall i :: 0 <= i < |fbs| ==> r[i] == DestroyFramebuffer(fbs[i])
  {
    seq(|fbs|, i requires 0 <= i < |fbs| => DestroyFramebuffer(fbs[i]))
  }

  /** The create info of the recreation, naming the current chain as the old one. */
  function RecreateInfo(s: RendererState, ans: RecreateAnswers): Option<SwapchainCreateInfo>
  {
    CreateInfo(ans.surface, ans.window, s.current.obj)
  }

  /** The render pass after the recreation: a new one only when both the extent and the
      format changed. */
  function NewRenderPass(renderPass: Handle, ch: RecreationChanges, created: Handle): Handle
  {
    if ch.extent && ch.format then created else renderPass
  }

  /** The calls of the nested `if changes.extent { if changes.format { .. } .. }`, given
      the render pass in use, the new chain's format and extent, and the render pass a
      rebuild creates. */
  function DependencyEvents(renderPass: Handle, ch: RecreationChanges, format: Format, extent: Extent2D, created: Handle): seq<Event>
  {
    if ch.extent then
      (if ch.format then [DestroyRenderPass(renderPass), CreateRenderPass(format, created)] else [])
      + [RecreateMainPipelines(extent, NewRenderPass(renderPass, ch, created))]
    else []
  }

  /** The calls of one `recreate_swapchain` that succeeds, in order: build the new chain,
      wait for the frame's fence, destroy the framebuffers, rebuild what depends on the
      changes, destroy the retired chain, create the new framebuffers. */
  function RecreateEvents(s: RendererState, fence: Handle, ans: RecreateAnswers): seq<Event>
    requires |ans.chain.views| == |ans.chain.images|
    requires RecreateInfo(s, ans).Some?
  {
    var info := RecreateInfo(s, ans).value;
    var ch := Changes(s.current, info.imageFormat, info.imageExtent);
    BuildEvents(info, ans.chain) + [WaitForFence(fence)] + FramebufferDestroyEvents(s.framebuffers)
    + DependencyEvents(s.renderPass, ch, info.imageFormat, info.imageExtent, ans.renderPass)
    + DestroyEvents(s.current)
    + [CreateFramebuffers(NewRenderPass(s.renderPass, ch, ans.renderPass), ans.chain.views, info.imageExtent, ans.framebuffers)]
  }

  /** The state after one `recreate_swapchain` that succeeds. */
  function Recreated(s: RendererState, ans: RecreateAnswers): RendererState
    requires RecreateInfo(s, ans).Some?
  {
    var info := RecreateInfo(s, ans).value;
    var ch := Changes(s.current, info.imageFormat, info.imageExtent);
    RendererState(GenOf(info, ans.chain), NewRenderPass(s.renderPass, ch, ans.renderPass), ans.framebuffers)
  }

  /** Calls that destroy an object of the chain or of what depends on it. */
  predicate IsChainDestruction(e: Event)
  {
    e.DestroyImageView? || e.DestroySwapchain? || e.DestroyFramebuffer? || e.DestroyRenderPass?
  }

  /** Nothing built on the chain is destroyed before it is known to be unused: the new
      chain is created first, and every destruction (views, swapchain, framebuffers,
      render pass) comes after the wait on the frame's fence. */
  lemma RecreateWaitsBeforeDestroying(s: RendererState, fence: Handle, ans: RecreateAnswers)
    requires |ans.chain.views| == |ans.chain.images|
    requires RecreateInfo(s, ans).Some?
    ensures var r := RecreateEvents(s, fence, ans);
      var w := 2 + |ans.chain.images|;
      && w < |r|
      && r[0] == CreateSwapchain(RecreateInfo(s, ans).value, ans.chain.swapchain)
      && r[w] == WaitForFence(fence)
      && (forall i :: 0 <= i < w ==> !IsChainDestruction(r[i]))
      && (forall fb :: fb in s.framebuffers ==> DestroyFramebuffer(fb) in r[w + 1..])
      && DestroySwapchain(s.current.obj) in r[w + 1..]
  {
    var info := RecreateInfo(s, ans).value;
    var ch := Changes(s.current, info.imageFormat, info.imageExtent);
    var b := BuildEvents(info, ans.chain);
    var fbs := FramebufferDestroyEvents(s.framebuffers);
    var d := DestroyEvents(s.current);
    var tail := fbs + DependencyEvents(s.renderPass, ch, info.imageFormat, info.imageExtent, ans.renderPass)
      + d + [CreateFramebuffers(NewRenderPass(s.renderPass, ch, ans.renderPass), ans.chain.views, info.imageExtent, ans.framebuffers)];
    assert RecreateEvents(s, fence, ans) == b + [WaitForFence(fence)] + tail;
    BuildCreatesOnly(info, ans.chain);
    Splice(b, WaitForFence(fence), tail);
    forall fb | fb in s.framebuffers
      ensures DestroyFramebuffer(fb) in tail
    {
      var k :| 0 <= k < |s.framebuffers| && s.framebuffers[k] == fb;
      assert tail[k] == fbs[k];
    }
    assert d[|d| - 1] == DestroySwapchain(s.current.obj);
    assert DestroySwapchain(s.current.obj) in d;
  }

  /** Building a generation creates and queries only: it destroys nothing of a chain. */
  lemma BuildCreatesOnly(info: SwapchainCreateInfo, h: ChainHandles)
    requires |h.views| == |h.images|
    ensures var b := BuildEvents(info, h);
      && |b| == 2 + |h.images| && b[0] == CreateSwapchain(info, h.swapchain)
      && forall i :: 0 <= i < |b| ==> !IsChainDestruction(b[i])
  {
    var b := BuildEvents(info, h);
    var v := ViewEvents(h.images, info.imageFormat, h.views);
    forall i | 0 <= i < |b|
      ensures !IsChainDestruction(b[i])
    {
      if i >= 2 {
        assert b[i] == v[i - 2];
      }
    }
  }

  /** The positions of a sequence made of a prefix, one call and a suffix. */
  lemma Splice(b: seq<Event>, x: Event, tail: seq<Event>)
    ensures var r := b + [x] + tail;
      && |r| == |b| + 1 + |tail| && r[|b|] == x && r[|b| + 1..] == tail
      && forall i :: 0 <= i < |b| ==> r[i] == b[i]
  {
    var r := b + [x] + tail;
    assert r[|b| + 1..] == tail;
  }

  /** The main pipelines are rebuilt exactly when the extent changed; the render pass is
      destroyed and created again exactly when both the extent and the format changed. */
  lemma RecreateRebuildsDependents(s: RendererState, fence: Handle, ans: RecreateAnswers)
    requires |ans.chain.views| == |ans.chain.images|
    requires RecreateInfo(s, ans).Some?
    ensures var info := RecreateInfo(s, ans).value;
      var ch := Changes(s.current, info.imageFormat, info.imageExtent);
      var r := RecreateEvents(s, fence, ans);
      && ((exists e :: e in r && e.RecreateMainPipelines?) <==> ch.extent)
      && ((exists e :: e in r && e.CreateRenderPass?) <==> ch.extent && ch.format)
      && ((exists e :: e in r && e.DestroyRenderPass?) <==> ch.extent && ch.format)
      && (ch.extent ==> RecreateMainPipelines(info.imageExtent, Recreated(s, ans).renderPass) in r)
  {
    var info := RecreateInfo(s, ans).value;
    var ch := Changes(s.current, info.imageFormat, info.imageExtent);
    var r := RecreateEvents(s, fence, ans);
    var views := ViewEvents(ans.chain.images, info.imageFormat, ans.chain.views);
    var others := BuildEvents(info, ans.chain) + [WaitForFence(fence)] + FramebufferDestroyEvents(s.framebuffers);
    var last := DestroyEvents(s.current)
      + [CreateFramebuffers(NewRenderPass(s.renderPass, ch, ans.renderPass), ans.chain.views, info.imageExtent, ans.framebuffers)];
    assert r == others + DependencyEvents(s.renderPass, ch, info.imageFormat, info.imageExtent, ans.renderPass) + last;
    assert forall e :: e in views ==> e.CreateImageView?;
    assert forall e :: e in others ==> !e.RecreateMainPipelines? && !e.CreateRenderPass? && !e.DestroyRenderPass?;
    assert forall e :: e in DestroyEvents(s.current) ==> e.DestroyImageView? || e.DestroySwapchain?;
    assert forall e :: e in last ==> !e.RecreateMainPipelines? && !e.CreateRenderPass? && !e.DestroyRenderPass?;
    var dep := DependencyEvents(s.renderPass, ch, info.imageFormat, info.imageExtent, ans.renderPass);
    if ch.extent {
      assert dep[|dep| - 1] in r;
      if ch.format {
        assert dep[0] in r && dep[1] in r;
      }
    }
  }

  /** The retired chain is destroyed exactly once, just before the framebuffers are
      created again from the new chain's views and extent, which is the last call. */
  lemma RecreateDestroysOldOnceThenFramebuffers(s: RendererState, fence: Handle, ans: RecreateAnswers)
    requires |ans.chain.views| == |ans.chain.images|
    requires RecreateInfo(s, ans).Some?
    ensures var r := RecreateEvents(s, fence, ans);
      var n := Recreated(s, ans);
      && |r| >= 2
      && r[|r| - 1] == CreateFramebuffers(n.renderPass, n.current.imageViews, n.current.extent, n.framebuffers)
      && r[|r| - 2] == DestroySwapchain(s.current.obj)
      && forall e :: e in r[..|r| - 2] ==> !e.DestroySwapchain?
  {
    var info := RecreateInfo(s, ans).value;
    var ch := Changes(s.current, info.imageFormat, info.imageExtent);
    var r := RecreateEvents(s, fence, ans);
    var p := BuildEvents(info, ans.chain) + [WaitForFence(fence)] + FramebufferDestroyEvents(s.framebuffers)
      + DependencyEvents(s.renderPass, ch, info.imageFormat, info.imageExtent, ans.renderPass);
    var d := DestroyEvents(s.current);
    var f := CreateFramebuffers(NewRenderPass(s.renderPass, ch, ans.renderPass), ans.chain.views, info.imageExtent, ans.framebuffers);
    assert r == p + d + [f];
    ViewEventsKinds(ans.chain.images, info.imageFormat, ans.chain.views);
    FramebufferDestroyEventsKinds(s.framebuffers);
    assert forall e :: e in p ==> !e.DestroySwapchain?;
    DestroyEventsKinds(s.current);
    assert r[..|r| - 2] == p + d[..|d| - 1];
  }

  lemma ViewEventsKinds(images: seq<Handle>, format: Format, views: seq<Handle>)
    requires |views| == |images|
    ensures forall e :: e in ViewEvents(images, format, views) ==> e.CreateImageView?
  {
    var v := ViewEvents(images, format, views);
    forall e | e in v
      ensures e.CreateImageView?
    {
      var k :| 0 <= k < |v| && v[k] == e;
    }
  }

  lemma FramebufferDestroyEventsKinds(fbs: seq<Handle>)
    ensures forall e :: e in FramebufferDestroyEvents(fbs) ==> e.DestroyFramebuffer?
  {
    var v := FramebufferDestroyEvents(fbs);
    forall e | e in v
      ensures e.DestroyFramebuffer?
    {
      var k :| 0 <= k < |v| && v[k] == e;
    }
  }

  /** Destroying a chain destroys its views, then the swapchain, and nothing else. */
  lemma DestroyEventsKinds(g: SwapchainGen)
    ensures var d := DestroyEvents(g);
      && (forall e :: e in d ==> e.DestroyImageView? || e.DestroySwapchain?)
      && (forall e :: e in d[..|d| - 1] ==> e.DestroyImageView?)
  {
    var d := DestroyEvents(g);
    forall e | e in d
      ensures e.DestroyImageView? || e.DestroySwapchain?
    {
      var k :| 0 <= k < |d| && d[k] == e;
    }
    forall e | e in d[..|d| - 1]
      ensures e.DestroyImageView?
    {
      var k :| 0 <= k < |d| - 1 && d[..|d| - 1][k] == e;
      assert d[k] == e;
    }
  }

  /** The log of a recreation, assembled from the logs after each of its steps. */
  lemma RecreateAssembles(s: RendererState, fence: Handle, ans: RecreateAnswers, info: SwapchainCreateInfo,
                          ch: RecreationChanges, l0: seq<Event>, l1: seq<Event>, l2: seq<Event>, l3: seq<Event>,
                          l4: seq<Event>, l5: seq<Event>)
    requires |ans.chain.views| == |ans.chain.images|
    requires RecreateInfo(s, ans) == Some(info)
    requires ch == Changes(s.current, info.imageFormat, info.imageExtent)
    requires l1 == l0 + BuildEvents(info, ans.chain)
    requires l2 == l1 + [WaitForFence(fence)] + FramebufferDestroyEvents(s.framebuffers)
    requires l3 == l2 + DependencyEvents(s.renderPass, ch, info.imageFormat, info.imageExtent, ans.renderPass)
    requires l4 == l3 + DestroyEvents(s.current)
    requires l5 == l4 + [CreateFramebuffers(NewRenderPass(s.renderPass, ch, ans.renderPass), ans.chain.views, info.imageExtent, ans.framebuffers)]
    ensures l5 == l0 + RecreateEvents(s, fence, ans)
  {
  }

  /** `Renderer`: the fields that the recreation and the teardown touch. */
  class Renderer {
    const swapchains: Swapchains
    const surface: Handle
    /** Whether `debug_utils` is `Some`. */
    const hasDebugUtils: bool
    var renderPass: Handle
    var framebuffers: seq<Handle>

    constructor (swapchains: Swapchains, surface: Handle, hasDebugUtils: bool, renderPass: Handle, framebuffers: seq<Handle>)
      ensures this.swapchains == swapchains && this.surface == surface && this.hasDebugUtils == hasDebugUtils
      ensures this.renderPass == renderPass && this.framebuffers == framebuffers
    {
      this.swapchains := swapchains;
      this.surface := surface;
      this.hasDebugUtils := hasDebugUtils;
      this.renderPass := renderPass;
      this.framebuffers := framebuffers;
    }

    function State(): RendererState
      reads this, swapchains
    {
      RendererState(swapchains.current, renderPass, framebuffers)
    }

    /** Between calls, no retired chain is waiting: every recreation destroys it. */
    predicate Valid()
      reads this, swapchains
    {
      swapchains.retired == None
    }

    /** `recreate_swapchain(fence)`. A surface with no format panics before any call
        (modelled as `Err`). */
    method RecreateSwapchain(device: Device, fence: Handle, ans: RecreateAnswers) returns (r: Result<(), SwapchainError>)
      requires Valid()
      requires |ans.chain.views| == |ans.chain.images|
      modifies this, swapchains, device
      ensures Valid()
      ensures r.Err? <==> ans.surface.formats == []
      ensures r.Err? ==> State() == old(State()) && device.log == old(device.log)
      ensures r.Ok? ==>
        && RecreateInfo(old(State()), ans).Some?
        && State() == Recreated(old(State()), ans)
        && device.log == old(device.log) + RecreateEvents(old(State()), fence, ans)
    {
      ghost var s := State();
      ghost var start := device.log;
      var changes := swapchains.RecreateSwapchain(device, ans.surface, ans.window, ans.chain);
      if changes.Err? {
        return Err(changes.error);
      }
      ghost var info := RecreateInfo(s, ans).value;
      ghost var built := device.log;
      WaitThenDestroyFramebuffers(device, fence);
      ghost var waited := device.log;
      RebuildDependents(device, changes.value, ans.renderPass);
      ghost var rebuilt := device.log;
      swapchains.DestroyOld(device);
      ghost var destroyed := device.log;
      framebuffers := ans.framebuffers;
      CreateFramebuffersCall(device);
      RecreateAssembles(s, fence, ans, info, changes.value, start, built, waited, rebuilt, destroyed, device.log);
      r := Ok(());
    }

    /** The fence wait, then the loop destroying every framebuffer. */
    method WaitThenDestroyFramebuffers(device: Device, fence: Handle)
      modifies device
      ensures device.log == old(device.log) + [WaitForFence(fence)] + FramebufferDestroyEvents(framebuffers)
    {
      device.Call(WaitForFence(fence));
      DestroyFramebuffers(device, framebuffers);
    }

    /** The nested `if changes.extent { if changes.format { .. } recreate_main }`, which
        reads the new chain's format and extent. */
    method RebuildDependents(device: Device, ch: RecreationChanges, created: Handle)
      modifies this`renderPass, device
      ensures renderPass == NewRenderPass(old(renderPass), ch, created)
      ensures device.log == old(device.log)
        + DependencyEvents(old(renderPass), ch, swapchains.Format(), swapchains.Extent(), created)
    {
      if ch.extent {
        if ch.format {
          device.Call(DestroyRenderPass(renderPass));
          renderPass := created;
          device.Call(CreateRenderPass(swapchains.Format(), renderPass));
        }
        device.Call(RecreateMainPipelines(swapchains.Extent(), renderPass));
      }
    }

    /** `create_framebuffers` from the current chain's views and extent. */
    method CreateFramebuffersCall(device: Device)
      modifies device
      ensures device.log == old(device.log)
        + [CreateFramebuffers(renderPass, swapchains.ImageViews(), swapchains.Extent(), framebuffers)]
    {
      device.Call(CreateFramebuffers(renderPass, swapchains.ImageViews(), swapchains.Extent(), framebuffers));
    }

    /** `impl Drop for Renderer`. */
    method Drop(device: Device)
      modifies this, swapchains, device
      ensures device.log == old(device.log) + DropEvents(old(State()), old(swapchains.retired), surface, hasDebugUtils)
    {
      ghost var s := State();
      ghost var retired := swapchains.retired;
      ghost var start := device.log;
      DeviceTeardown(device);
      assert device.log == start + DeviceTeardownEvents(s, retired);
      device.Call(DestroyDevice);
      device.Call(DestroySurface(surface));
      if hasDebugUtils {
        device.Call(DestroyDebugUtils);
      }
      device.Call(DestroyInstance);
    }

    /** The part of `Drop` that runs while the device is alive. */
    method DeviceTeardown(device: Device)
      modifies swapchains, device
      ensures device.log == old(device.log) + DeviceTeardownEvents(old(State()), old(swapchains.retired))
    {
      ghost var s := State();
      ghost var retired := swapchains.retired;
      ghost var start := device.log;
      device.Call(DestroyCommandPools);
      device.Call(DestroyBuffers);
      DestroyFramebuffers(device, framebuffers);
      device.Call(DestroyPipelines);
      device.Call(DestroyDescriptorSets);
      device.Call(DestroyRenderPass(renderPass));
      ghost var mid := device.log;
      assert mid == start + [DestroyCommandPools, DestroyBuffers] + FramebufferDestroyEvents(s.framebuffers)
        + [DestroyPipelines, DestroyDescriptorSets, DestroyRenderPass(s.renderPass)];
      swapchains.DestroySelf(device);
    }
  }

  /** The loop `for &framebuffer in self.framebuffers.iter() { destroy_framebuffer }`. */
  method DestroyFramebuffers(device: Device, fbs: seq<Handle>)
    modifies device
    ensures device.log == old(device.log) + FramebufferDestroyEvents(fbs)
  {
    ghost var start := device.log;
    for k := 0 to |fbs|
      invariant device.log == start + FramebufferDestroyEvents(fbs)[..k]
    {
      device.Call(DestroyFramebuffer(fbs[k]));
      assert FramebufferDestroyEvents(fbs)[..k + 1] == FramebufferDestroyEvents(fbs)[..k] + [DestroyFramebuffer(fbs[k])];
    }
    assert FramebufferDestroyEvents(fbs)[..|fbs|] == FramebufferDestroyEvents(fbs);
  }

  /** The calls of `Drop`, in order: command pools, buffers, framebuffers, pipelines,
      descriptor sets, render pass, swapchains (retired, then current), device, surface,
      debug utils when present, instance. */
  function DropEvents(s: RendererState, retired: Option<SwapchainGen>, surface: Handle, hasDebugUtils: bool): seq<Event>
  {
    DeviceTeardownEvents(s, retired)
    + [DestroyDevice, DestroySurface(surface)]
    + (if hasDebugUtils then [DestroyDebugUtils] else [])
    + [DestroyInstance]
  }

  /** The part of `Drop` that runs while the device is alive. */
  function DeviceTeardownEvents(s: RendererState, retired: Option<SwapchainGen>): seq<Event>
  {
    [DestroyCommandPools, DestroyBuffers] + FramebufferDestroyEvents(s.framebuffers)
    + [DestroyPipelines, DestroyDescriptorSets, DestroyRenderPass(s.renderPass)]
    + (if retired.Some? then DestroyEvents(retired.value) else [])
    + DestroyEvents(s.current)
  }

  /** Objects created from the logical device, which must be destroyed before it. */
  predicate IsDeviceChild(e: Event)
  {
    || e.DestroyCommandPools? || e.DestroyBuffers? || e.DestroyFramebuffer? || e.DestroyPipelines?
    || e.DestroyDescriptorSets? || e.DestroyRenderPass? || e.DestroyImageView? || e.DestroySwapchain?
  }

  /** `Drop` releases objects in reverse order of dependency: every framebuffer, the
      render pass and the current chain are destroyed while the device is alive; the
      device is destroyed once every object created from it is, and only objects it does
      not own follow: the surface (so after every swapchain presenting to it), the debug
      messenger when present, and the instance last. */
  lemma DropOrder(s: RendererState, retired: Option<SwapchainGen>, surface: Handle, hasDebugUtils: bool)
    ensures var r := DropEvents(s, retired, surface, hasDebugUtils);
      var d := |DeviceTeardownEvents(s, retired)|;
      && d + 2 < |r|
      && r[d] == DestroyDevice && r[d + 1] == DestroySurface(surface) && r[|r| - 1] == DestroyInstance
      && (forall e :: e in r[..d] ==> IsDeviceChild(e))
      && (forall e :: e in r[d + 1..] ==> !IsDeviceChild(e) && e != DestroyDevice)
      && DestroyInstance !in r[..|r| - 1]
  {
    DeviceTeardownKinds(s, retired);
    TeardownTailOrder(DeviceTeardownEvents(s, retired), surface, hasDebugUtils);
  }

  /** The order of the calls after the device-owned objects are gone. */
  lemma TeardownTailOrder(a: seq<Event>, surface: Handle, hasDebugUtils: bool)
    requires forall e :: e in a ==> IsDeviceChild(e)
    ensures var r := a + [DestroyDevice, DestroySurface(surface)] + (if hasDebugUtils then [DestroyDebugUtils] else []) + [DestroyInstance];
      && |a| + 2 < |r|
      && r[|a|] == DestroyDevice && r[|a| + 1] == DestroySurface(surface) && r[|r| - 1] == DestroyInstance
      && (forall e :: e in r[..|a|] ==> IsDeviceChild(e))
      && (forall e :: e in r[|a| + 1..] ==> !IsDeviceChild(e) && e != DestroyDevice)
      && DestroyInstance !in r[..|r| - 1]
  {
    var b := [DestroySurface(surface)] + (if hasDebugUtils then [DestroyDebugUtils] else []) + [DestroyInstance];
    var r := a + [DestroyDevice, DestroySurface(surface)] + (if hasDebugUtils then [DestroyDebugUtils] else []) + [DestroyInstance];
    assert r == a + [DestroyDevice] + b;
    assert r[..|a|] == a;
    assert r[|a| + 1..] == b;
    assert r[..|r| - 1] == a + [DestroyDevice] + b[..|b| - 1];
  }

  /** While the device is alive, `Drop` destroys only objects created from it. */
  lemma DeviceTeardownKinds(s: RendererState, retired: Option<SwapchainGen>)
    ensures forall e :: e in DeviceTeardownEvents(s, retired) ==> IsDeviceChild(e)
  {
    FramebufferDestroyEventsKinds(s.framebuffers);
    DestroyEventsKinds(s.current);
    if retired.Some? {
      DestroyEventsKinds(retired.value);
    }
  }

  /** Every framebuffer, the render pass and the current chain are destroyed while the
      device is still alive. */
  lemma DropDestroysDependents(s: RendererState, retired: Option<SwapchainGen>, surface: Handle, hasDebugUtils: bool)
    ensures var r := DropEvents(s, retired, surface, hasDebugUtils);
      var d := |DeviceTeardownEvents(s, retired)|;
      && d <= |r|
      && (forall fb :: fb in s.framebuffers ==> DestroyFramebuffer(fb) in r[..d])
      && DestroyRenderPass(s.renderPass) in r[..d]
      && DestroySwapchain(s.current.obj) in r[..d]
  {
    var r := DropEvents(s, retired, surface, hasDebugUtils);
    var a := DeviceTeardownEvents(s, retired);
    assert r[..|a|] == a;
    var fbd := FramebufferDestroyEvents(s.framebuffers);
    var cur := DestroyEvents(s.current);
    forall fb | fb in s.framebuffers
      ensures DestroyFramebuffer(fb) in a
    {
      var k :| 0 <= k < |s.framebuffers| && s.framebuffers[k] == fb;
      assert fbd[k] == DestroyFramebuffer(fb);
    }
    assert cur[|cur| - 1] == DestroySwapchain(s.current.obj);
  }

  /** `check_validation_layers_support`: sorts the available layer names, then looks up
      every requested layer; the first requested layer missing is the error. Layer names
      are integer codes; the available list is what the loader enumerates. */
  method CheckValidationLayersSupport(availableLayers: seq<int>, validationLayers: seq<int>) returns (r: Result<(), int>)
    ensures r.Ok? <==> forall name :: name in validationLayers ==> name in availableLayers
    ensures r.Err? ==> FirstMissing(availableLayers, validationLayers) == Some(r.error)
    ensures r.Err? ==> r.error in validationLayers && r.error !in availableLayers
  {
    var available := new int[|availableLayers|](i requires 0 <= i < |availableLayers| => availableLayers[i]);
    assert available[..] == availableLayers;
    r := ContainsAll(available, validationLayers);
    FirstMissingNoneIff(availableLayers, validationLayers);
    if r.Err? {
      FirstMissingIsFirst(availableLayers, validationLayers);
    }
  }
}
