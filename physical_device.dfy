/** Physical-device selection (src/render/objects/physical_device.rs): which devices
    qualify, which queue families they offer for graphics, compute and transfer, and
    which qualifying device is preferred. What the driver reports about each device is
    passed in as a `PhysicalDeviceInfo`; extension names are integer codes. */
module PhysicalDevice {
  import opened Wrappers
  import opened Vk
  import opened Utility
  import Swapchain

  /** `VkPhysicalDeviceType`; codes outside the five named ones are `UnknownType`. */
  datatype DeviceType = DiscreteGpu | IntegratedGpu | VirtualGpu | Cpu | OtherType | UnknownType(code: int)

  /** One entry of the queue-family properties, with the surface-support answer for it. */
  datatype QueueFamily = QueueFamily(queueFlags: Flags, supportsSurface: bool)

  /** What the driver reports about one physical device. */
  datatype PhysicalDeviceInfo = PhysicalDeviceInfo(
    handle: Handle,
    deviceType: DeviceType,
    families: seq<QueueFamily>,
    extensions: seq<int>,
    surfaceFormats: seq<Swapchain.SurfaceFormat>,
    presentModes: seq<PresentMode>)

  /** `QueueFamilyIndices`. */
  datatype QueueFamilyIndices = QueueFamilyIndices(graphics: nat, compute: nat, transfer: Option<nat>)

  /** The two panics of the selection and its final `expect`. */
  datatype SelectionError = NoComputeFamily | UnknownDeviceTypePanic | NoDeviceAvailable

  // ---------------------------------------------------------------------------
  // Queue families

  datatype QueueRole = GraphicsRole | ComputeRole | TransferRole

  /** The branch of the `if / else if` chain a family takes, if any: graphics needs the
      GRAPHICS bit and surface support; a family is considered for compute only if it is
      not taken for graphics, and for transfer only if it is taken for neither. */
  function Role(f: QueueFamily): Option<QueueRole>
  {
    if QUEUE_GRAPHICS <= f.queueFlags && f.supportsSurface then Some(GraphicsRole)
    else if QUEUE_COMPUTE <= f.queueFlags then Some(ComputeRole)
    else if QUEUE_TRANSFER <= f.queueFlags then Some(TransferRole)
    else None
  }

  /** The index of the last family taking `role`. */
  function LastWithRole(families: seq<QueueFamily>, role: QueueRole): Option<nat>
  {
    if families == [] then None
    else if Role(families[|families| - 1]) == Some(role) then Some(|families| - 1)
    else LastWithRole(families[..|families| - 1], role)
  }

  /** The scan of `select_physical_device`'s `filter_map`: each family overwrites the
      index of the role it takes. */
  method FindQueueFamilies(families: seq<QueueFamily>) returns (graphics: Option<nat>, compute: Option<nat>, transfer: Option<nat>)
    ensures graphics == LastWithRole(families, GraphicsRole)
    ensures compute == LastWithRole(families, ComputeRole)
    ensures transfer == LastWithRole(families, TransferRole)
  {
    graphics, compute, transfer := None, None, None;
    for i := 0 to |families|
      invariant graphics == LastWithRole(families[..i], GraphicsRole)
      invariant compute == LastWithRole(families[..i], ComputeRole)
      invariant transfer == LastWithRole(families[..i], TransferRole)
    {
      assert families[..i + 1][..i] == families[..i];
      var family := families[i];
      if QUEUE_GRAPHICS <= family.queueFlags && family.supportsSurface {
        graphics := Some(i);
      } else if QUEUE_COMPUTE <= family.queueFlags {
        compute := Some(i);
      } else if QUEUE_TRANSFER <= family.queueFlags {
        transfer := Some(i);
      }
    }
    assert families[..|families|] == families;
  }

  /** The index found for a role is the last family taking it; `None` means no family
      takes it. */
  lemma {:induction false} LastWithRoleSpec(families: seq<QueueFamily>, role: QueueRole)
    ensures LastWithRole(families, role).None? <==> forall i :: 0 <= i < |families| ==> Role(families[i]) != Some(role)
    ensures LastWithRole(families, role).Some? ==>
      var k := LastWithRole(families, role).value;
      && k < |families|
      && Role(families[k]) == Some(role)
      && forall j :: k < j < |families| ==> Role(families[j]) != Some(role)
    decreases |families|
  {
    if families != [] {
      var init := families[..|families| - 1];
      LastWithRoleSpec(init, role);
      assert forall i :: 0 <= i < |init| ==> init[i] == families[i];
    }
  }

  /** A family taken for graphics is never the compute or transfer family, and the three
      roles land on three different families. */
  lemma RolesAreDistinct(families: seq<QueueFamily>)
    ensures var g := LastWithRole(families, GraphicsRole);
      var c := LastWithRole(families, ComputeRole);
      var t := LastWithRole(families, TransferRole);
      && (g.Some? && c.Some? ==> g.value != c.value)
      && (g.Some? && t.Some? ==> g.value != t.value)
      && (c.Some? && t.Some? ==> c.value != t.value)
  {
    LastWithRoleSpec(families, GraphicsRole);
    LastWithRoleSpec(families, ComputeRole);
    LastWithRoleSpec(families, TransferRole);
  }

  /** A graphics-capable family without surface support is still a compute candidate when
      it has the COMPUTE bit: the chain tests surface support only for graphics. */
  lemma GraphicsWithoutSurfaceCanBeCompute()
    ensures Role(QueueFamily(QUEUE_GRAPHICS + QUEUE_COMPUTE, false)) == Some(ComputeRole)
  {
  }

  // ---------------------------------------------------------------------------
  // Qualification

  /** `is_superset`, which is still a stub: every feature set qualifies. */
  predicate IsSuperset()
  {
    true
  }

  /** The pure statement of `check_extension_support`. */
  predicate ExtensionsSupported(available: seq<int>, extensions: seq<int>)
  {
    FirstMissing(available, extensions).None?
  }

  /** `check_extension_support`: `contains_all` on the device's extension names. */
  method CheckExtensionSupport(available: seq<int>, extensions: seq<int>) returns (r: bool)
    ensures r == ExtensionsSupported(available, extensions)
    ensures r <==> forall x :: x in extensions ==> x in available
  {
    var names := new int[|available|](i requires 0 <= i < |available| => available[i]);
    assert names[..] == available;
    var found := ContainsAll(names, extensions);
    FirstMissingNoneIff(available, extensions);
    r := found.Ok?;
  }

  /** `check_swapchain_support`: the surface reports at least one format and at least one
      present mode. */
  function CheckSwapchainSupport(d: PhysicalDeviceInfo): (r: bool)
    ensures r <==> |d.surfaceFormats| > 0 && |d.presentModes| > 0
  {
    !(d.surfaceFormats == []) && !(d.presentModes == [])
  }

  /** A device that passes the swapchain check gives the swapchain manager a format to
      choose (so `formats[0]` does not panic) and a present mode the surface offers, or
      FIFO. */
  lemma SwapchainSupportSuffices(d: PhysicalDeviceInfo)
    requires CheckSwapchainSupport(d)
    ensures Swapchain.SelectedFormat(d.surfaceFormats).Some?
    ensures var m := Swapchain.SelectPresentMode(d.presentModes, Swapchain.ENABLE_VSYNC);
      m in d.presentModes || m == Fifo
  {
    Swapchain.SelectedFormatSpec(d.surfaceFormats);
    Swapchain.PresentModeIsMostPreferred(d.presentModes, Swapchain.ENABLE_VSYNC);
  }

  /** The `filter` of `select_physical_device`. */
  predicate Qualifies(d: PhysicalDeviceInfo, extensions: seq<int>)
  {
    IsSuperset() && ExtensionsSupported(d.extensions, extensions) && CheckSwapchainSupport(d)
  }

  // ---------------------------------------------------------------------------
  // Ranking and selection

  /** The key of `min_by_key`; `None` is the `panic!()` on an unknown type. */
  function Rank(t: DeviceType): Option<nat>
  {
    match t
    case DiscreteGpu => Some(0)
    case IntegratedGpu => Some(1)
    case VirtualGpu => Some(2)
    case Cpu => Some(3)
    case OtherType => Some(4)
    case UnknownType(_) => None
  }

  /** What the iterator chain does with one device: skips it (fails the filter, or no
      graphics family), panics on it (graphics but no compute family, or an unknown
      type), or offers it with its rank and family indices. */
  datatype Verdict = Skipped | Panics(reason: SelectionError) | Candidate(rank: nat, indices: QueueFamilyIndices)

  function Judge(d: PhysicalDeviceInfo, extensions: seq<int>): Verdict
  {
    if !Qualifies(d, extensions) then Skipped
    else
      var g := LastWithRole(d.families, GraphicsRole);
      var c := LastWithRole(d.families, ComputeRole);
      if g.None? then Skipped
      else if c.None? then Panics(NoComputeFamily)
      else match Rank(d.deviceType)
        case None => Panics(UnknownDeviceTypePanic)
        case Some(r) => Candidate(r, QueueFamilyIndices(g.value, c.value, LastWithRole(d.families, TransferRole)))
  }

  /** The best candidate so far: its position, rank and indices. */
  datatype Best = Best(index: nat, rank: nat, indices: QueueFamilyIndices)

  /** The best candidate after seeing device `k` with verdict `v`: a candidate replaces
      the best only with a strictly smaller rank (`min_by_key` keeps the first minimum). */
  function Improve(best: Option<Best>, k: nat, v: Verdict): Option<Best>
  {
    if v.Candidate? && (best.None? || v.rank < best.value.rank) then Some(Best(k, v.rank, v.indices)) else best
  }

  /** The chain run over `devices[k..]`, with the best candidate of `devices[..k]`:
      devices are visited in order and a panic stops everything. */
  function SelectFrom(devices: seq<PhysicalDeviceInfo>, extensions: seq<int>, k: nat, best: Option<Best>): Result<(nat, QueueFamilyIndices), SelectionError>
    requires k <= |devices|
    decreases |devices| - k
  {
    if k == |devices| then
      match best
      case None => Err(NoDeviceAvailable)
      case Some(b) => Ok((b.index, b.indices))
    else
      var v := Judge(devices[k], extensions);
      if v.Panics? then Err(v.reason)
      else SelectFrom(devices, extensions, k + 1, Improve(best, k, v))
  }

  /** `select_physical_device`: the position of the chosen device and its family indices. */
  function SelectPhysicalDevice(devices: seq<PhysicalDeviceInfo>, extensions: seq<int>): Result<(nat, QueueFamilyIndices), SelectionError>
  {
    SelectFrom(devices, extensions, 0, None)
  }

  /** What `SelectFrom` keeps about the best candidate of `devices[..k]`. */
  predicate BestOfPrefix(devices: seq<PhysicalDeviceInfo>, extensions: seq<int>, k: nat, best: Option<Best>)
    requires k <= |devices|
  {
    && (forall j :: 0 <= j < k ==> !Judge(devices[j], extensions).Panics?)
    && (best.None? <==> forall j :: 0 <= j < k ==> Judge(devices[j], extensions).Skipped?)
    && (best.Some? ==>
          && best.value.index < k
          && Judge(devices[best.value.index], extensions) == Candidate(best.value.rank, best.value.indices)
          && forall j :: 0 <= j < k && Judge(devices[j], extensions).Candidate? ==>
               (j < best.value.index ==> Judge(devices[j], extensions).rank > best.value.rank)
               && (j > best.value.index ==> Judge(devices[j], extensions).rank >= best.value.rank))
  }

  /** The chain over `devices[k..]` panics exactly when one of those devices panics. */
  lemma {:induction false} SelectFromPanics(devices: seq<PhysicalDeviceInfo>, extensions: seq<int>, k: nat, best: Option<Best>)
    requires k <= |devices|
    ensures var r := SelectFrom(devices, extensions, k, best);
      r.Err? && r.error != NoDeviceAvailable <==> exists j :: k <= j < |devices| && Judge(devices[j], extensions).Panics?
    decreases |devices| - k
  {
    if k < |devices| {
      var v := Judge(devices[k], extensions);
      if v.Panics? {
        assert k <= k < |devices| && Judge(devices[k], extensions).Panics?;
      } else {
        SelectFromPanics(devices, extensions, k + 1, Improve(best, k, v));
      }
    }
  }

  /** With no candidate before `k` exactly when `best` is empty, the chain finds nothing
      exactly when every device is skipped. */
  lemma {:induction false} SelectFromNothing(devices: seq<PhysicalDeviceInfo>, extensions: seq<int>, k: nat, best: Option<Best>)
    requires k <= |devices|
    requires best.None? <==> forall j :: 0 <= j < k ==> Judge(devices[j], extensions).Skipped?
    ensures SelectFrom(devices, extensions, k, best) == Err(NoDeviceAvailable) <==> forall j :: 0 <= j < |devices| ==> Judge(devices[j], extensions).Skipped?
    decreases |devices| - k
  {
    if k < |devices| {
      var v := Judge(devices[k], extensions);
      if !v.Panics? {
        SelectFromNothing(devices, extensions, k + 1, Improve(best, k, v));
      }
    }
  }

  /** From a best-so-far that is right for `devices[..k]`, a successful chain returns the
      best candidate of all devices. */
  lemma {:induction false} SelectFromOk(devices: seq<PhysicalDeviceInfo>, extensions: seq<int>, k: nat, best: Option<Best>) returns (fin: Best)
    requires k <= |devices|
    requires BestOfPrefix(devices, extensions, k, best)
    requires SelectFrom(devices, extensions, k, best).Ok?
    ensures SelectFrom(devices, extensions, k, best) == Ok((fin.index, fin.indices))
    ensures BestOfPrefix(devices, extensions, |devices|, Some(fin))
    decreases |devices| - k
  {
    if k == |devices| {
      fin := best.value;
    } else {
      var v := Judge(devices[k], extensions);
      ImproveKeepsBest(devices, extensions, k, best);
      fin := SelectFromOk(devices, extensions, k + 1, Improve(best, k, v));
    }
  }

  /** Seeing one more device that does not panic keeps the best-so-far right. */
  lemma ImproveKeepsBest(devices: seq<PhysicalDeviceInfo>, extensions: seq<int>, k: nat, best: Option<Best>)
    requires k < |devices|
    requires BestOfPrefix(devices, extensions, k, best)
    requires !Judge(devices[k], extensions).Panics?
    ensures BestOfPrefix(devices, extensions, k + 1, Improve(best, k, Judge(devices[k], extensions)))
  {
  }

  /** The selection panics exactly when some device would panic, and then with the first
      such device's reason; it reports "no device available" exactly when every device is
      skipped. */
  lemma SelectionErrors(devices: seq<PhysicalDeviceInfo>, extensions: seq<int>)
    ensures var r := SelectPhysicalDevice(devices, extensions);
      && (r.Err? && r.error != NoDeviceAvailable <==> exists j :: 0 <= j < |devices| && Judge(devices[j], extensions).Panics?)
      && (r == Err(NoDeviceAvailable) <==> forall j :: 0 <= j < |devices| ==> Judge(devices[j], extensions).Skipped?)
  {
    SelectFromPanics(devices, extensions, 0, None);
    SelectFromNothing(devices, extensions, 0, None);
  }

  /** The selected device qualifies, has a graphics and a compute family (the last ones
      found), and has the smallest rank of all candidates; among candidates of that rank
      it comes first. */
  lemma SelectionIsFirstMinimum(devices: seq<PhysicalDeviceInfo>, extensions: seq<int>)
    ensures var r := SelectPhysicalDevice(devices, extensions);
      r.Ok? ==>
        var k := r.value.0;
        && k < |devices|
        && Qualifies(devices[k], extensions)
        && Some(r.value.1.graphics) == LastWithRole(devices[k].families, GraphicsRole)
        && Some(r.value.1.compute) == LastWithRole(devices[k].families, ComputeRole)
        && r.value.1.transfer == LastWithRole(devices[k].families, TransferRole)
        && Rank(devices[k].deviceType).Some?
        && forall j :: 0 <= j < |devices| && Judge(devices[j], extensions).Candidate? ==>
             var rj := Rank(devices[j].deviceType).value;
             (j < k ==> rj > Rank(devices[k].deviceType).value) && (j > k ==> rj >= Rank(devices[k].deviceType).value)
  {
    if SelectPhysicalDevice(devices, extensions).Ok? {
      var fin := SelectFromOk(devices, extensions, 0, None);
    }
  }
}
