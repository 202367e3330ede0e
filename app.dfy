/** The application object (src/app.rs): the list of squares drawn by the 2D scene, grown
    by the space bar up to a fixed maximum, and the calls it forwards to the renderer. The
    random position and size of a new square are parameters. */
module App {
  import opened Wrappers
  import opened Scalars
  import opened Keys
  import opened SquareInstance

  /** `MAX_SQUARE_AMMOUNT`. */
  const MAX_SQUARE_AMMOUNT: nat := 8

  /** The square `App::new` starts with: at (-0.5, -0.5), size 0.2. */
  const INITIAL_SQUARE: SquareInstance := New(Vec2(F32_MINUS_HALF, F32_MINUS_HALF), F32_POINT_TWO)

  /** The renderer calls `App` forwards. */
  datatype RenderCall = ResizeCall | RedrawCall | RenderCall(squares: seq<SquareInstance>)

  /** `handle_key_event` on the square list: the new list and whether the program must
      terminate. `added` is the square a space release would append. */
  function KeyEvent(squares: seq<SquareInstance>, keycode: Option<VirtualKeyCode>, state: ElementState, added: SquareInstance): (seq<SquareInstance>, bool)
  {
    if keycode == Some(Escape) && state == ElementPressed then (squares, true)
    else if keycode == Some(Space) && state == ElementReleased then
      (if |squares| < MAX_SQUARE_AMMOUNT then squares + [added] else squares, false)
    else (squares, false)
  }

  /** The four cases of `handle_key_event`: Escape pressed asks to exit; Space released
      appends one square while fewer than the maximum are shown and otherwise changes
      nothing; every other event changes nothing and does not ask to exit. */
  lemma KeyEventCases(squares: seq<SquareInstance>, keycode: Option<VirtualKeyCode>, state: ElementState, added: SquareInstance)
    ensures var (next, exit) := KeyEvent(squares, keycode, state, added);
      && (exit <==> keycode == Some(Escape) && state == ElementPressed)
      && (keycode == Some(Space) && state == ElementReleased && |squares| < MAX_SQUARE_AMMOUNT ==> next == squares + [added])
      && (!(keycode == Some(Space) && state == ElementReleased && |squares| < MAX_SQUARE_AMMOUNT) ==> next == squares)
  {
  }

  /** One key event never takes the list past the maximum, and grows it by at most one. */
  lemma KeyEventBounded(squares: seq<SquareInstance>, keycode: Option<VirtualKeyCode>, state: ElementState, added: SquareInstance)
    requires |squares| <= MAX_SQUARE_AMMOUNT
    ensures var next := KeyEvent(squares, keycode, state, added).0;
      |next| <= MAX_SQUARE_AMMOUNT && |squares| <= |next| <= |squares| + 1 && next[..|squares|] == squares
  {
  }

  /** One key event with the square a space release would add. */
  datatype KeyInput = KeyInput(keycode: Option<VirtualKeyCode>, state: ElementState, added: SquareInstance)

  /** The square list after a sequence of key events. */
  function KeyEvents(squares: seq<SquareInstance>, inputs: seq<KeyInput>): seq<SquareInstance>
    decreases |inputs|
  {
    if inputs == [] then squares
    else KeyEvents(KeyEvent(squares, inputs[0].keycode, inputs[0].state, inputs[0].added).0, inputs[1..])
  }

  /** From the initial list, no sequence of key events shows more than the maximum number
      of squares, and the initial square stays first. */
  lemma {:induction false} KeyEventsBounded(squares: seq<SquareInstance>, inputs: seq<KeyInput>)
    requires 1 <= |squares| <= MAX_SQUARE_AMMOUNT
    ensures var r := KeyEvents(squares, inputs);
      1 <= |r| <= MAX_SQUARE_AMMOUNT && r[0] == squares[0]
    decreases |inputs|
  {
    if inputs != [] {
      var i := inputs[0];
      KeyEventBounded(squares, i.keycode, i.state, i.added);
      KeyEventsBounded(KeyEvent(squares, i.keycode, i.state, i.added).0, inputs[1..]);
    }
  }

  /** `App`: the squares and the renderer it drives. The renderer is represented by the
      maximum it was created with and the calls forwarded to it. */
  class App {
    var squares: seq<SquareInstance>
    const renderMaxSquares: nat
    ghost var forwarded: seq<RenderCall>

    predicate Valid()
      reads this
    {
      1 <= |squares| <= MAX_SQUARE_AMMOUNT
    }

    /** `App::new`: one square, and a renderer sized for the maximum. */
    constructor ()
      ensures squares == [INITIAL_SQUARE] && renderMaxSquares == MAX_SQUARE_AMMOUNT && forwarded == []
      ensures Valid()
    {
      squares := [INITIAL_SQUARE];
      renderMaxSquares := MAX_SQUARE_AMMOUNT;
      forwarded := [];
    }

    /** `handle_key_event`; returns true when the program must terminate. */
    method HandleKeyEvent(keycode: Option<VirtualKeyCode>, state: ElementState, randomPos: Vec2, randomSize: F32) returns (exit: bool)
      requires Valid()
      modifies this`squares
      ensures Valid()
      ensures (squares, exit) == KeyEvent(old(squares), keycode, state, New(randomPos, randomSize))
    {
      if keycode == Some(Escape) && state == ElementPressed {
        return true;
      } else if keycode == Some(Space) && state == ElementReleased {
        if |squares| < MAX_SQUARE_AMMOUNT {
          squares := squares + [New(randomPos, randomSize)];
        }
      }
      exit := false;
    }

    /** `handle_window_resize`: forwarded to the renderer. */
    method HandleWindowResize()
      modifies this`forwarded
      ensures forwarded == old(forwarded) + [ResizeCall]
    {
      forwarded := forwarded + [ResizeCall];
    }

    /** `request_redraw`: forwarded to the renderer. */
    method RequestRedraw()
      modifies this`forwarded
      ensures forwarded == old(forwarded) + [RedrawCall]
    {
      forwarded := forwarded + [RedrawCall];
    }

    /** `render_next_frame`: the renderer draws the current squares. */
    method RenderNextFrame()
      modifies this`forwarded
      ensures forwarded == old(forwarded) + [RenderCall(squares)]
    {
      forwarded := forwarded + [RenderCall(squares)];
    }
  }
}
