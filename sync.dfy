/** The frame synchroniser (src/render/sync.rs): two frame slots, each with its own
    semaphores and fence, used in turn; one call of `render_next_frame` waits for the
    slot, resets its fence, acquires an image, records and submits the compute and
    graphics work, and presents. GPU work is not modelled: every call the synchroniser
    makes is a `Step` of a ghost trace, and what the driver answers (acquire and present
    results) is an input of the frame. */
module Sync {
  import opened Wrappers
  import opened Vk

  /** `Frame`: the synchronisation objects of one slot. */
  datatype Frame = Frame(imageAvailable: Handle, renderFinished: Handle, finished: Handle, instanceComputeFinished: Handle)

  /** One call made by the synchroniser: a driver call, or `Renderer::recreate_swapchain`
      with the fence it waits on. */
  datatype Step = Call(event: Event) | Recreate(fence: Handle)

  /** The calls of `Frame::new`: three semaphores, then a fence created signaled. */
  function FrameCreateSteps(f: Frame): seq<Step>
  {
    [Call(CreateSemaphore(f.imageAvailable)), Call(CreateSemaphore(f.renderFinished)),
     Call(CreateSemaphore(f.instanceComputeFinished)), Call(CreateFence(f.finished, true))]
  }

  /** The calls of `Frame::destroy`. */
  function FrameDestroySteps(f: Frame): seq<Step>
  {
    [Call(DeviceWaitIdle), Call(DestroySemaphore(f.imageAvailable)), Call(DestroySemaphore(f.renderFinished)),
     Call(DestroySemaphore(f.instanceComputeFinished)), Call(DestroyFence(f.finished))]
  }

  /** What `acquire_next_image` answers: an image index and whether the chain is
      suboptimal, or an error (such as an out-of-date chain). */
  datatype AcquireResult = Acquired(imageIndex: nat, suboptimal: bool) | AcquireFailed

  /** What one frame depends on besides the synchroniser's state: the number of squares,
      the answers of the acquire and of the retry after a recreation, and whether the
      present fails. */
  datatype FrameInput = FrameInput(instanceCount: nat, acquire: AcquireResult, retry: AcquireResult, presentFailed: bool)

  /** The two panics of the acquire retry. */
  datatype PanicReason = InvalidSwapchainUponRecreation | SuboptimalSwapchainUponRecreation

  /** `last_in_use_i` and `recreate_swapchain_next_frame`. */
  datatype SyncState = SyncState(lastInUse: nat, recreateNextFrame: bool)

  datatype Outcome = Completed(state: SyncState) | Panicked(reason: PanicReason)

  /** The calls of one frame and how it ends. */
  datatype Tick = Tick(steps: seq<Step>, outcome: Outcome)

  /** The slot a frame uses after slot `last`. */
  function NextSlot(last: nat): (r: nat)
    ensures r < FRAMES_IN_FLIGHT
  {
    (last + 1) % FRAMES_IN_FLIGHT
  }

  /** The start of a frame: a pending recreation (which waits on the previous slot's
      fence) or the wait on the current slot's fence; then the reset of that fence. */
  function StartSteps(frames: seq<Frame>, st: SyncState): seq<Step>
    requires |frames| == FRAMES_IN_FLIGHT && st.lastInUse < FRAMES_IN_FLIGHT
  {
    var cur := frames[NextSlot(st.lastInUse)];
    (if st.recreateNextFrame then [Recreate(frames[st.lastInUse].finished)] else [Call(WaitForFence(cur.finished))])
    + [Call(ResetFence(cur.finished))]
  }

  /** The acquire: on an error, one recreation (waiting on the previous slot's fence) and
      one retry, which must give an image that is not suboptimal. */
  function AcquireSteps(frames: seq<Frame>, last: nat, input: FrameInput): (seq<Step>, Result<nat, PanicReason>)
    requires |frames| == FRAMES_IN_FLIGHT && last < FRAMES_IN_FLIGHT
  {
    var acquire := Call(AcquireNextImage(frames[NextSlot(last)].imageAvailable));
    match input.acquire
    case Acquired(image, _) => ([acquire], Ok(image))
    case AcquireFailed =>
      var steps := [acquire, Recreate(frames[last].finished), acquire];
      match input.retry
      case AcquireFailed => (steps, Err(InvalidSwapchainUponRecreation))
      case Acquired(image, suboptimal) =>
        if suboptimal then (steps, Err(SuboptimalSwapchainUponRecreation)) else (steps, Ok(image))
  }

  /** The compute submit of a slot: no waits, signals `instance_compute_finished`, no fence. */
  function ComputeSubmit(f: Frame, slot: nat): Event
  {
    QueueSubmit(ComputeQueue, [], ComputeCommandBuffer(slot), [f.instanceComputeFinished], NullHandle)
  }

  /** The graphics submit of a slot: waits on `image_available` at the color-attachment
      output stage and on `instance_compute_finished` at the vertex-input stage, signals
      `render_finished` and the slot's fence. */
  function GraphicsSubmit(f: Frame, slot: nat): Event
  {
    QueueSubmit(GraphicsQueue,
                [SemaphoreWait(f.imageAvailable, ColorAttachmentOutput), SemaphoreWait(f.instanceComputeFinished, VertexInput)],
                MainCommandBuffer(slot), [f.renderFinished], f.finished)
  }

  /** Recording, both submits and the present, for slot `slot` and image `image`. */
  function WorkSteps(frames: seq<Frame>, slot: nat, image: nat, count: nat): seq<Step>
    requires |frames| == FRAMES_IN_FLIGHT && slot < FRAMES_IN_FLIGHT
  {
    var f := frames[slot];
    [Call(RecordMainCommandBuffer(slot, image, count)), Call(UpdateInstanceComputeDescriptorSet(slot, count)),
     Call(UpdateInstanceData(slot, count)), Call(RecordInstanceComputeCommandBuffer(slot, count)),
     Call(ComputeSubmit(f, slot)), Call(GraphicsSubmit(f, slot)), Call(QueuePresent(image, [f.renderFinished]))]
  }

  /** One `render_next_frame`. */
  function FrameTick(frames: seq<Frame>, st: SyncState, input: FrameInput): (t: Tick)
    requires |frames| == FRAMES_IN_FLIGHT && st.lastInUse < FRAMES_IN_FLIGHT
    ensures t.outcome.Completed? ==> t.outcome.state.lastInUse < FRAMES_IN_FLIGHT
  {
    var a := AcquireSteps(frames, st.lastInUse, input);
    var pre := StartSteps(frames, st) + a.0;
    match a.1
    case Err(reason) => Tick(pre, Panicked(reason))
    case Ok(image) =>
      Tick(pre + WorkSteps(frames, NextSlot(st.lastInUse), image, input.instanceCount),
           Completed(SyncState(NextSlot(st.lastInUse),
                               (input.acquire.Acquired? && input.acquire.suboptimal) || input.presentFailed)))
  }

  /** `SyncRender`: the slots, the last slot used and the recreation flag. */
  class SyncRender {
    const frames: seq<Frame>
    var lastInUse: nat
    var recreateNextFrame: bool
    ghost var trace: seq<Step>

    predicate Valid()
      reads this
    {
      |frames| == FRAMES_IN_FLIGHT && lastInUse < FRAMES_IN_FLIGHT
    }

    function State(): SyncState
      reads this
    {
      SyncState(lastInUse, recreateNextFrame)
    }

    /** `SyncRender::initialize`: two frames created with their fences signaled, slot 0
        recorded as last used, no recreation pending. */
    constructor Initialize(f0: Frame, f1: Frame)
      ensures Valid()
      ensures frames == [f0, f1] && lastInUse == 0 && !recreateNextFrame
      ensures trace == FrameCreateSteps(f0) + FrameCreateSteps(f1)
    {
      frames := [f0, f1];
      lastInUse := 0;
      recreateNextFrame := false;
      trace := FrameCreateSteps(f0) + FrameCreateSteps(f1);
    }

    /** `handle_window_resize`: only raises the flag; nothing is called. */
    method HandleWindowResize()
      modifies this
      ensures recreateNextFrame && lastInUse == old(lastInUse) && trace == old(trace)
    {
      recreateNextFrame := true;
    }

    /** `render_next_frame`. A panic ends the frame with `Err`. */
    method RenderNextFrame(input: FrameInput) returns (r: Result<(), PanicReason>)
      requires Valid()
      modifies this
      ensures Valid()
      ensures trace == old(trace) + FrameTick(frames, old(State()), input).steps
      ensures r.Err? <==> FrameTick(frames, old(State()), input).outcome.Panicked?
      ensures r.Err? ==> r.error == FrameTick(frames, old(State()), input).outcome.reason
      ensures r.Ok? ==> State() == FrameTick(frames, old(State()), input).outcome.state
    {
      ghost var st := State();
      ghost var start := trace;
      var cur := (lastInUse + 1) % FRAMES_IN_FLIGHT;
      if recreateNextFrame {
        trace := trace + [Recreate(frames[lastInUse].finished)];
        recreateNextFrame := false;
      } else {
        trace := trace + [Call(WaitForFence(frames[cur].finished))];
      }
      trace := trace + [Call(ResetFence(frames[cur].finished))];
      assert trace == start + StartSteps(frames, st);
      var image := AcquireImage(input);
      if image.Err? {
        return Err(image.error);
      }
      RecordSubmitPresent(cur, image.value, input.instanceCount);
      if input.presentFailed {
        recreateNextFrame := true;
      }
      lastInUse := cur;
      r := Ok(());
    }

    /** The `match` on `acquire_next_image`: a suboptimal image raises the flag but is
        used; an error recreates the chain once and retries. */
    method AcquireImage(input: FrameInput) returns (r: Result<nat, PanicReason>)
      requires Valid()
      modifies this`trace, this`recreateNextFrame
      ensures trace == old(trace) + AcquireSteps(frames, lastInUse, input).0
      ensures r == AcquireSteps(frames, lastInUse, input).1
      ensures recreateNextFrame == (old(recreateNextFrame) || (input.acquire.Acquired? && input.acquire.suboptimal))
    {
      var cur := (lastInUse + 1) % FRAMES_IN_FLIGHT;
      trace := trace + [Call(AcquireNextImage(frames[cur].imageAvailable))];
      match input.acquire {
        case Acquired(image, suboptimal) =>
          if suboptimal {
            recreateNextFrame := true;
          }
          return Ok(image);
        case AcquireFailed =>
          trace := trace + [Recreate(frames[lastInUse].finished)];
          trace := trace + [Call(AcquireNextImage(frames[cur].imageAvailable))];
          match input.retry {
            case AcquireFailed =>
              return Err(InvalidSwapchainUponRecreation);
            case Acquired(image, suboptimal) =>
              if suboptimal {
                return Err(SuboptimalSwapchainUponRecreation);
              }
              return Ok(image);
          }
      }
    }

    /** Recording, the compute submit, the graphics submit and the present. */
    method RecordSubmitPresent(cur: nat, image: nat, count: nat)
      requires Valid() && cur < FRAMES_IN_FLIGHT
      modifies this`trace
      ensures trace == old(trace) + WorkSteps(frames, cur, image, count)
    {
      var f := frames[cur];
      trace := trace + [Call(RecordMainCommandBuffer(cur, image, count)), Call(UpdateInstanceComputeDescriptorSet(cur, count))];
      trace := trace + [Call(UpdateInstanceData(cur, count)), Call(RecordInstanceComputeCommandBuffer(cur, count))];
      trace := trace + [Call(ComputeSubmit(f, cur))];
      trace := trace + [Call(GraphicsSubmit(f, cur))];
      trace := trace + [Call(QueuePresent(image, [f.renderFinished]))];
    }

    /** `impl Drop for SyncRender`: each frame waits for the device to be idle, then
        destroys its semaphores and fence. */
    method Drop()
      requires Valid()
      modifies this`trace
      ensures trace == old(trace) + FrameDestroySteps(frames[0]) + FrameDestroySteps(frames[1])
    {
      trace := trace + FrameDestroySteps(frames[0]);
      trace := trace + FrameDestroySteps(frames[1]);
    }
  }

  // ---------------------------------------------------------------------------
  // Properties of one frame

  /** Each frame uses the slot after the last one and records it as last, so two
      consecutive frames never use the same slot. */
  lemma SlotRotation(frames: seq<Frame>, st: SyncState, input: FrameInput)
    requires |frames| == FRAMES_IN_FLIGHT && st.lastInUse < FRAMES_IN_FLIGHT
    ensures var t := FrameTick(frames, st, input);
      t.outcome.Completed? ==>
        && t.outcome.state.lastInUse == (st.lastInUse + 1) % 2
        && t.outcome.state.lastInUse != st.lastInUse
  {
  }

  /** A pending flag gives a recreation at the start of the frame, waiting on the
      previous slot's fence, and no wait on the current slot's fence; without the flag,
      the frame starts by waiting on the current slot's fence. The only other recreation
      is the one right after a failed acquire, so a frame recreates the chain at most
      once for each of the two causes. */
  lemma FrameStart(frames: seq<Frame>, st: SyncState, input: FrameInput)
    requires |frames| == FRAMES_IN_FLIGHT && st.lastInUse < FRAMES_IN_FLIGHT
    ensures var t := FrameTick(frames, st, input);
      var cur := frames[NextSlot(st.lastInUse)];
      && |t.steps| >= 3
      && (st.recreateNextFrame ==> t.steps[0] == Recreate(frames[st.lastInUse].finished))
      && (st.recreateNextFrame ==> forall i :: 0 <= i < |t.steps| ==> t.steps[i] != Call(WaitForFence(cur.finished)))
      && (!st.recreateNextFrame ==> t.steps[0] == Call(WaitForFence(cur.finished)))
      && (input.acquire.AcquireFailed? <==> |t.steps| > 3 && t.steps[3].Recreate?)
      && (input.acquire.AcquireFailed? ==> t.steps[3] == Recreate(frames[st.lastInUse].finished))
      && forall i :: 0 <= i < |t.steps| && t.steps[i].Recreate? ==> i == 0 || i == 3
  {
  }

  /** The current slot's fence is reset right after the wait, before anything is recorded
      or submitted, and it is the fence the graphics submit signals; the compute submit
      signals no fence. */
  lemma ResetBeforeWork(frames: seq<Frame>, st: SyncState, input: FrameInput)
    requires |frames| == FRAMES_IN_FLIGHT && st.lastInUse < FRAMES_IN_FLIGHT
    ensures var t := FrameTick(frames, st, input);
      var slot := NextSlot(st.lastInUse);
      && |t.steps| >= 3
      && t.steps[1] == Call(ResetFence(frames[slot].finished))
      && (t.steps[0].Recreate? || t.steps[0].event.WaitForFence?)
      && forall i :: 0 <= i < |t.steps| && t.steps[i].Call? && t.steps[i].event.QueueSubmit? ==>
           && 1 < i
           && t.steps[i].event.signalFence == (if t.steps[i].event.queue == GraphicsQueue then frames[slot].finished else NullHandle)
  {
  }

  /** The queue chain of a frame that completes: the compute work signals
      `instance_compute_finished`; the graphics work waits on `image_available` and on
      it, and signals `render_finished` and the slot's fence; the present waits on
      `render_finished`. The image presented is the one acquired, suboptimal or not. */
  lemma SemaphoreChain(frames: seq<Frame>, st: SyncState, input: FrameInput)
    requires |frames| == FRAMES_IN_FLIGHT && st.lastInUse < FRAMES_IN_FLIGHT
    ensures var t := FrameTick(frames, st, input);
      var slot := NextSlot(st.lastInUse);
      var f := frames[slot];
      var image := if input.acquire.Acquired? then input.acquire.imageIndex
                   else if input.retry.Acquired? then input.retry.imageIndex else 0;
      t.outcome.Completed? ==>
        && |t.steps| >= 7
        && t.steps[|t.steps| - 7] == Call(RecordMainCommandBuffer(slot, image, input.instanceCount))
        && t.steps[|t.steps| - 3] == Call(QueueSubmit(ComputeQueue, [], ComputeCommandBuffer(slot), [f.instanceComputeFinished], NullHandle))
        && t.steps[|t.steps| - 2] == Call(QueueSubmit(GraphicsQueue,
              [SemaphoreWait(f.imageAvailable, ColorAttachmentOutput), SemaphoreWait(f.instanceComputeFinished, VertexInput)],
              MainCommandBuffer(slot), [f.renderFinished], f.finished))
        && t.steps[|t.steps| - 1] == Call(QueuePresent(image, [f.renderFinished]))
  {
  }

  /** The frame's ending: it panics exactly when the acquire failed and the retry failed
      too or was suboptimal; otherwise the flag is left raised exactly when the acquire
      was suboptimal or the present failed (a failed present does not stop the frame). */
  lemma FrameOutcome(frames: seq<Frame>, st: SyncState, input: FrameInput)
    requires |frames| == FRAMES_IN_FLIGHT && st.lastInUse < FRAMES_IN_FLIGHT
    ensures var t := FrameTick(frames, st, input);
      && (t.outcome.Panicked? <==> input.acquire.AcquireFailed? && (input.retry.AcquireFailed? || input.retry.suboptimal))
      && (t.outcome.Panicked? ==>
            t.outcome.reason == if input.retry.AcquireFailed? then InvalidSwapchainUponRecreation else SuboptimalSwapchainUponRecreation)
      && (t.outcome.Completed? ==>
            t.outcome.state.recreateNextFrame == ((input.acquire.Acquired? && input.acquire.suboptimal) || input.presentFailed))
  {
  }

  // ---------------------------------------------------------------------------
  // Several frames

  /** Frames rendered one after the other until one panics. */
  function Run(frames: seq<Frame>, st: SyncState, inputs: seq<FrameInput>): Tick
    requires |frames| == FRAMES_IN_FLIGHT && st.lastInUse < FRAMES_IN_FLIGHT
    decreases |inputs|
  {
    if inputs == [] then Tick([], Completed(st))
    else
      var t := FrameTick(frames, st, inputs[0]);
      match t.outcome
      case Panicked(_) => t
      case Completed(next) =>
        var rest := Run(frames, next, inputs[1..]);
        Tick(t.steps + rest.steps, rest.outcome)
  }

  /** Slots alternate: after k frames from `initialize` the last slot used is k mod 2. */
  lemma {:induction false} RunAlternatesSlots(frames: seq<Frame>, st: SyncState, inputs: seq<FrameInput>)
    requires |frames| == FRAMES_IN_FLIGHT && st.lastInUse < FRAMES_IN_FLIGHT
    ensures Run(frames, st, inputs).outcome.Completed? ==>
      Run(frames, st, inputs).outcome.state.lastInUse == (st.lastInUse + |inputs|) % 2
    decreases |inputs|
  {
    if inputs != [] {
      var t := FrameTick(frames, st, inputs[0]);
      if t.outcome.Completed? {
        RunAlternatesSlots(frames, t.outcome.state, inputs[1..]);
      }
    }
  }

  /** Whether a step touches the state of fence `f`: creates it, resets it, or submits
      work that signals it. */
  predicate TouchesFence(s: Step, f: Handle)
  {
    && s.Call?
    && ((s.event.CreateFence? && s.event.fence == f)
        || (s.event.ResetFence? && s.event.fence == f)
        || (s.event.QueueSubmit? && s.event.signalFence == f))
  }

  /** Whether a wait on `f` after `history` returns: the last step touching `f` created
      it signaled or submitted work that signals it, rather than resetting it. */
  function Signaled(history: seq<Step>, f: Handle): bool
  {
    if history == [] then false
    else
      var s := history[|history| - 1];
      if TouchesFence(s, f) then (s.event.CreateFence? && s.event.signaled) || s.event.QueueSubmit?
      else Signaled(history[..|history| - 1], f)
  }

  /** The fence a step waits on: a fence wait, or a recreation, which waits on the fence
      it is given. */
  function WaitedFence(s: Step): Option<Handle>
  {
    match s
    case Recreate(f) => Some(f)
    case Call(e) => if e.WaitForFence? then Some(e.fence) else None
  }

  /** Every wait of `steps`, run after `history`, is on a fence that is signaled or has
      signaling work pending, so no wait blocks forever. */
  predicate SafeWaits(history: seq<Step>, steps: seq<Step>)
  {
    forall i :: 0 <= i < |steps| && WaitedFence(steps[i]).Some? ==> Signaled(history + steps[..i], WaitedFence(steps[i]).value)
  }

  /** The slot fences are distinct driver objects. */
  predicate DistinctFences(frames: seq<Frame>)
    requires |frames| == FRAMES_IN_FLIGHT
  {
    frames[0].finished != frames[1].finished && frames[0].finished != NullHandle && frames[1].finished != NullHandle
  }

  lemma {:induction false} SignaledUntouched(h: seq<Step>, t: seq<Step>, f: Handle)
    requires forall i :: 0 <= i < |t| ==> !TouchesFence(t[i], f)
    ensures Signaled(h + t, f) == Signaled(h, f)
    decreases |t|
  {
    if t == [] {
      assert h + t == h;
    } else {
      assert (h + t)[..|h + t| - 1] == h + t[..|t| - 1];
      SignaledUntouched(h, t[..|t| - 1], f);
    }
  }

  /** Where a frame waits: step 0 waits on the current slot's fence, or (recreating) on
      the previous slot's; after a failed acquire step 3 recreates, waiting on the
      previous slot's fence, which steps 0 to 2 do not touch; no other step waits. */
  lemma FrameWaitPositions(frames: seq<Frame>, st: SyncState, input: FrameInput)
    requires |frames| == FRAMES_IN_FLIGHT && st.lastInUse < FRAMES_IN_FLIGHT && DistinctFences(frames)
    ensures var t := FrameTick(frames, st, input);
      var cf := frames[NextSlot(st.lastInUse)].finished;
      var lf := frames[st.lastInUse].finished;
      && |t.steps| >= 3
      && WaitedFence(t.steps[0]) == Some(if st.recreateNextFrame then lf else cf)
      && (input.acquire.AcquireFailed? ==>
            && |t.steps| > 3
            && WaitedFence(t.steps[3]) == Some(lf)
            && forall i :: 0 <= i < 3 ==> !TouchesFence(t.steps[i], lf))
      && forall i :: 0 < i < |t.steps| && WaitedFence(t.steps[i]).Some? ==> i == 3 && input.acquire.AcquireFailed?
  {
    var a := AcquireSteps(frames, st.lastInUse, input);
    var start := StartSteps(frames, st);
    var pre := start + a.0;
    assert forall i :: 0 < i < |pre| && WaitedFence(pre[i]).Some? ==> i == 3 && input.acquire.AcquireFailed?;
    if a.1.Ok? {
      var work := WorkSteps(frames, NextSlot(st.lastInUse), a.1.value, input.instanceCount);
      assert forall i :: 0 <= i < |work| ==> WaitedFence(work[i]).None?;
      var steps := pre + work;
      assert forall i :: |pre| <= i < |steps| ==> steps[i] == work[i - |pre|];
    }
  }

  /** One frame waits only on signaled fences: the first step waits on the current slot's
      fence or (recreating) on the previous slot's, and the recreation after a failed
      acquire waits on the previous slot's fence, which the reset of the current one
      does not touch. */
  lemma FrameWaitsSafely(frames: seq<Frame>, st: SyncState, input: FrameInput, h: seq<Step>)
    requires |frames| == FRAMES_IN_FLIGHT && st.lastInUse < FRAMES_IN_FLIGHT && DistinctFences(frames)
    requires Signaled(h, frames[0].finished) && Signaled(h, frames[1].finished)
    ensures SafeWaits(h, FrameTick(frames, st, input).steps)
  {
    var t := FrameTick(frames, st, input);
    var lf := frames[st.lastInUse].finished;
    FrameWaitPositions(frames, st, input);
    forall i | 0 <= i < |t.steps| && WaitedFence(t.steps[i]).Some?
      ensures Signaled(h + t.steps[..i], WaitedFence(t.steps[i]).value)
    {
      if i == 0 {
        assert h + t.steps[..0] == h;
      } else {
        SignaledUntouched(h, t.steps[..3], lf);
      }
    }
  }

  /** A frame that completes leaves both slot fences signaled: the current one by its
      graphics submit, the other one untouched. */
  lemma FrameResignalsFences(frames: seq<Frame>, st: SyncState, input: FrameInput, h: seq<Step>)
    requires |frames| == FRAMES_IN_FLIGHT && st.lastInUse < FRAMES_IN_FLIGHT && DistinctFences(frames)
    requires Signaled(h, frames[0].finished) && Signaled(h, frames[1].finished)
    requires FrameTick(frames, st, input).outcome.Completed?
    ensures var after := h + FrameTick(frames, st, input).steps;
      Signaled(after, frames[0].finished) && Signaled(after, frames[1].finished)
  {
    var t := FrameTick(frames, st, input);
    var cf := frames[NextSlot(st.lastInUse)].finished;
    var lf := frames[st.lastInUse].finished;
    var n := |t.steps|;
    SignaledUntouched(h, t.steps, lf);
    var before := h + t.steps[..n - 1];
    assert h + t.steps == before + [t.steps[n - 1]];
    assert !TouchesFence(t.steps[n - 1], cf);
    assert before[|before| - 1] == t.steps[n - 2];
    assert Signaled(before, cf);
  }

  lemma SafeWaitsAppend(h: seq<Step>, a: seq<Step>, b: seq<Step>)
    requires SafeWaits(h, a) && SafeWaits(h + a, b)
    ensures SafeWaits(h, a + b)
  {
    forall i | 0 <= i < |a + b| && WaitedFence((a + b)[i]).Some?
      ensures Signaled(h + (a + b)[..i], WaitedFence((a + b)[i]).value)
    {
      if i < |a| {
        assert (a + b)[..i] == a[..i];
      } else {
        assert h + (a + b)[..i] == (h + a) + b[..i - |a|];
      }
    }
  }

  lemma {:induction false} RunWaitsSafely(frames: seq<Frame>, st: SyncState, inputs: seq<FrameInput>, h: seq<Step>)
    requires |frames| == FRAMES_IN_FLIGHT && st.lastInUse < FRAMES_IN_FLIGHT && DistinctFences(frames)
    requires Signaled(h, frames[0].finished) && Signaled(h, frames[1].finished)
    ensures SafeWaits(h, Run(frames, st, inputs).steps)
    decreases |inputs|
  {
    if inputs != [] {
      var t := FrameTick(frames, st, inputs[0]);
      FrameWaitsSafely(frames, st, inputs[0], h);
      if t.outcome.Completed? {
        FrameResignalsFences(frames, st, inputs[0], h);
        RunWaitsSafely(frames, t.outcome.state, inputs[1..], h + t.steps);
        SafeWaitsAppend(h, t.steps, Run(frames, t.outcome.state, inputs[1..]).steps);
      }
    }
  }

  /** No fence wait of any sequence of frames after `initialize` can block forever: every
      slot fence is created signaled, each frame resets only its own slot's fence and
      submits work that signals it again, and a recreation waits only on the other
      slot's fence. */
  lemma NoDeadlock(f0: Frame, f1: Frame, inputs: seq<FrameInput>)
    requires DistinctFences([f0, f1])
    ensures SafeWaits(FrameCreateSteps(f0) + FrameCreateSteps(f1), Run([f0, f1], SyncState(0, false), inputs).steps)
  {
    var init := FrameCreateSteps(f0) + FrameCreateSteps(f1);
    SignaledUntouched(FrameCreateSteps(f0), FrameCreateSteps(f1), f0.finished);
    assert init[..|init| - 1][|init| - 2] == Call(CreateSemaphore(f1.instanceComputeFinished));
    assert Signaled(FrameCreateSteps(f0), f0.finished);
    assert Signaled(init, f1.finished);
    RunWaitsSafely([f0, f1], SyncState(0, false), inputs, init);
  }
}
