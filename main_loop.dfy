/** The window event loop of `main_loop` (src/main.rs): the closure that dispatches each
    window-system event to the application, keeping the paused flag, the instant of the
    last rendered frame and the exit request. Clock readings and the application's answer
    to a key event are parameters; the calls made on the application are recorded. */
module MainLoop {
  import opened Wrappers
  import opened Scalars
  import opened Keys

  /** The `WindowEvent`s the closure distinguishes; sizes are physical pixels. */
  datatype WindowEvent =
    | CloseRequested
    | KeyboardInput(keycode: Option<VirtualKeyCode>, state: ElementState)
    | Resized(width: nat, height: nat)
    | CursorMoved(x: F32, y: F32)
    | MouseWheelLines(y: F32)
    | MouseWheelPixels
    | CursorLeft
    | CursorEntered
    | OtherWindowEvent

  /** The `Event`s the closure distinguishes. */
  datatype LoopEvent =
    | Suspended
    | Resumed
    | Window(event: WindowEvent)
    | MainEventsCleared
    | RedrawRequested
    | OtherEvent

  /** A call the closure makes on the application; `elapsed` is the time since the last
      rendered frame. */
  datatype AppCall =
    | HandleKeyEvent(keycode: Option<VirtualKeyCode>, state: ElementState)
    | HandleWindowResize
    | HandleCursorMoved(x: F32, y: F32)
    | HandleMouseWheel(y: F32)
    | HandleCursorLeftWindow
    | HandleCursorEnteredWindow
    | RequestRedraw
    | RenderNextFrame(elapsed: nat)

  /** The variables the closure captures, plus the exit request on `control_flow`. */
  datatype LoopState = LoopState(paused: bool, lastFrameInstant: nat, exit: bool)

  /** `now - last_frame_instant`: `Instant` subtraction saturates at zero. */
  function Elapsed(now: nat, last: nat): (r: nat)
    ensures now >= last ==> r + last == now
    ensures now < last ==> r == 0
  {
    if now >= last then now - last else 0
  }

  /** The closure's handling of one event: the new state and the calls made on the
      application, in order. `keyExit` is what `handle_key_event` returns and `now` is the
      clock reading taken when a frame is rendered. */
  function Dispatch(s: LoopState, e: LoopEvent, keyExit: bool, now: nat): (LoopState, seq<AppCall>)
  {
    match e
    case Suspended => (s.(paused := true), [])
    case Resumed => (s.(paused := false), [])
    case Window(w) =>
      (match w
       case CloseRequested => (s.(exit := true), [])
       case KeyboardInput(code, state) => (if keyExit then s.(exit := true) else s, [HandleKeyEvent(code, state)])
       case Resized(width, height) =>
         if width == 0 && height == 0 then (s.(paused := true), [])
         else (s.(paused := false), [HandleWindowResize])
       case CursorMoved(x, y) => (s, [HandleCursorMoved(x, y)])
       case MouseWheelLines(y) => (s, [HandleMouseWheel(y)])
       case MouseWheelPixels => (s, [])
       case CursorLeft => (s, [HandleCursorLeftWindow])
       case CursorEntered => (s, [HandleCursorEnteredWindow])
       case OtherWindowEvent => (s, []))
    case MainEventsCleared => (s, [RequestRedraw])
    case RedrawRequested =>
      if s.paused then (s, [])
      else (s.(lastFrameInstant := now), [RenderNextFrame(Elapsed(now, s.lastFrameInstant))])
    case OtherEvent => (s, [])
  }

  /** Suspending and minimizing pause the loop; resuming and any other resize unpause it;
      no other event touches the flag. */
  lemma PauseRule(s: LoopState, e: LoopEvent, keyExit: bool, now: nat)
    ensures var next := Dispatch(s, e, keyExit, now).0;
      && (e == Suspended || e == Window(Resized(0, 0)) ==> next.paused)
      && (e == Resumed || (e.Window? && e.event.Resized? && !(e.event.width == 0 && e.event.height == 0)) ==> !next.paused)
      && (e != Suspended && e != Resumed && !(e.Window? && e.event.Resized?) ==> next.paused == s.paused)
  {
  }

  /** A resize to zero by zero (a minimized window) is not forwarded; any other resize is
      forwarded exactly once. */
  lemma ResizeForwarding(s: LoopState, width: nat, height: nat, keyExit: bool, now: nat)
    ensures var calls := Dispatch(s, Window(Resized(width, height)), keyExit, now).1;
      && (width == 0 && height == 0 ==> calls == [])
      && (!(width == 0 && height == 0) ==> calls == [HandleWindowResize])
  {
  }

  /** A redraw request renders exactly when the loop is not paused, passing the time since
      the last rendered frame, and only a rendered frame moves the last-frame instant. */
  lemma RedrawGating(s: LoopState, keyExit: bool, now: nat)
    ensures var (next, calls) := Dispatch(s, RedrawRequested, keyExit, now);
      && (s.paused ==> next == s && calls == [])
      && (!s.paused ==> next.lastFrameInstant == now && calls == [RenderNextFrame(Elapsed(now, s.lastFrameInstant))])
  {
  }

  /** Exit is requested by a close request or by a key event the application answers with
      true, and by nothing else; once requested it stays requested. Clearing the main
      events always asks for a redraw. */
  lemma ExitRule(s: LoopState, e: LoopEvent, keyExit: bool, now: nat)
    ensures var (next, calls) := Dispatch(s, e, keyExit, now);
      && (next.exit <==> s.exit || e == Window(CloseRequested) || (e.Window? && e.event.KeyboardInput? && keyExit))
      && (e == MainEventsCleared ==> calls == [RequestRedraw])
  {
  }

  /** One event of a run: the event, the application's answer to it if it is a key event,
      and the clock reading. */
  datatype Input = Input(event: LoopEvent, keyExit: bool, now: nat)

  /** The state and the calls after a run of events. */
  function Run(s: LoopState, inputs: seq<Input>): (LoopState, seq<AppCall>)
    decreases |inputs|
  {
    if inputs == [] then (s, [])
    else
      var (next, calls) := Dispatch(s, inputs[0].event, inputs[0].keyExit, inputs[0].now);
      var (last, rest) := Run(next, inputs[1..]);
      (last, calls + rest)
  }

  /** An event after which a paused loop may be unpaused. */
  predicate Unpauses(e: LoopEvent)
  {
    e == Resumed || (e.Window? && e.event.Resized? && !(e.event.width == 0 && e.event.height == 0))
  }

  /** While the loop is paused and nothing unpauses it, no frame is rendered, however many
      redraws are requested, and the last-frame instant stays put. */
  lemma {:induction false} PausedRendersNothing(s: LoopState, inputs: seq<Input>)
    requires s.paused
    requires forall i :: 0 <= i < |inputs| ==> !Unpauses(inputs[i].event)
    ensures var (last, calls) := Run(s, inputs);
      && last.paused
      && last.lastFrameInstant == s.lastFrameInstant
      && forall c :: c in calls ==> !c.RenderNextFrame? && !c.HandleWindowResize?
    decreases |inputs|
  {
    if inputs != [] {
      var (next, calls) := Dispatch(s, inputs[0].event, inputs[0].keyExit, inputs[0].now);
      PauseRule(s, inputs[0].event, inputs[0].keyExit, inputs[0].now);
      assert forall i :: 0 <= i < |inputs[1..]| ==> inputs[1..][i] == inputs[i + 1];
      PausedRendersNothing(next, inputs[1..]);
    }
  }

  /** The closure and the variables it captures. */
  class MainLoop {
    var paused: bool
    var lastFrameInstant: nat
    var exit: bool
    ghost var calls: seq<AppCall>

    function State(): LoopState
      reads this
    {
      LoopState(paused, lastFrameInstant, exit)
    }

    /** `main_loop` before the first event: not paused, the clock read at `start`. */
    constructor (start: nat)
      ensures State() == LoopState(false, start, false) && calls == []
    {
      paused := false;
      lastFrameInstant := start;
      exit := false;
      calls := [];
    }

    /** One run of the closure. */
    method HandleEvent(e: LoopEvent, keyExit: bool, now: nat)
      modifies this
      ensures State() == Dispatch(old(State()), e, keyExit, now).0
      ensures calls == old(calls) + Dispatch(old(State()), e, keyExit, now).1
    {
      match e {
        case Suspended =>
          paused := true;
        case Resumed =>
          paused := false;
        case Window(w) =>
          match w {
            case CloseRequested =>
              exit := true;
            case KeyboardInput(code, state) =>
              calls := calls + [HandleKeyEvent(code, state)];
              if keyExit {
                exit := true;
              }
            case Resized(width, height) =>
              if width == 0 && height == 0 {
                paused := true;
              } else {
                paused := false;
                calls := calls + [HandleWindowResize];
              }
            case CursorMoved(x, y) =>
              calls := calls + [HandleCursorMoved(x, y)];
            case MouseWheelLines(y) =>
              calls := calls + [HandleMouseWheel(y)];
            case MouseWheelPixels =>
            case CursorLeft =>
              calls := calls + [HandleCursorLeftWindow];
            case CursorEntered =>
              calls := calls + [HandleCursorEnteredWindow];
            case OtherWindowEvent =>
          }
        case MainEventsCleared =>
          calls := calls + [RequestRedraw];
        case RedrawRequested =>
          if !paused {
            calls := calls + [RenderNextFrame(Elapsed(now, lastFrameInstant))];
            lastFrameInstant := now;
          }
        case OtherEvent =>
      }
    }
  }
}
