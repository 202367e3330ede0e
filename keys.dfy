/** Keyboard state: which of the tracked keys are held down (src/keys.rs). Window-system
    key codes and element states are modelled as the values the core distinguishes. */
module Keys {
  import opened Wrappers

  /** `winit::event::ElementState`. */
  datatype ElementState = ElementPressed | ElementReleased

  /** The `winit::event::VirtualKeyCode`s the core matches on; every other code is
      `OtherKey`. */
  datatype VirtualKeyCode =
    | KeyA | KeyW | KeyS | KeyD | Space | LShift | LControl | Up | Down | Left | Right
    | Escape
    | OtherKey(code: nat)

  /** `KeyState`. */
  datatype KeyState = Pressed | Released

  /** `KeyState::default()`. */
  const DEFAULT_KEY_STATE: KeyState := Released

  /** `Into<bool> for KeyState`. */
  function ToBool(k: KeyState): (r: bool)
    ensures r <==> k == Pressed
  {
    match k
    case Pressed => true
    case Released => false
  }

  /** `BitXor for KeyState`: the xor of the two states as booleans. */
  function Xor(a: KeyState, b: KeyState): (r: bool)
    ensures r <==> a != b
  {
    ToBool(a) != ToBool(b)
  }

  /** `From<ElementState> for KeyState`. */
  function FromElementState(s: ElementState): (r: KeyState)
    ensures r == Pressed <==> s == ElementPressed
  {
    match s
    case ElementPressed => Pressed
    case ElementReleased => Released
  }

  /** The eleven fields of `Keys`, one per tracked key. */
  datatype Key = A | W | S | D | SpaceKey | LShiftKey | LCtrlKey | UpKey | DownKey | LeftKey | RightKey

  /** The field `update_from_event` assigns for a key code, if any. */
  function FieldOf(code: VirtualKeyCode): (r: Option<Key>)
    ensures r.None? <==> code.Escape? || code.OtherKey?
  {
    match code
    case KeyA => Some(A)
    case KeyW => Some(W)
    case KeyS => Some(S)
    case KeyD => Some(D)
    case Space => Some(SpaceKey)
    case LShift => Some(LShiftKey)
    case LControl => Some(LCtrlKey)
    case Up => Some(UpKey)
    case Down => Some(DownKey)
    case Left => Some(LeftKey)
    case Right => Some(RightKey)
    case Escape => None
    case OtherKey(_) => None
  }

  /** Different key codes name different fields. */
  lemma FieldOfInjective(c1: VirtualKeyCode, c2: VirtualKeyCode)
    requires FieldOf(c1).Some? && FieldOf(c1) == FieldOf(c2)
    ensures c1 == c2
  {
  }

  /** The value of a `Keys` record, one state per tracked key. */
  datatype KeysValue = KeysValue(
    a: KeyState, w: KeyState, s: KeyState, d: KeyState, space: KeyState, lShift: KeyState,
    lCtrl: KeyState, upKey: KeyState, downKey: KeyState, leftKey: KeyState, rightKey: KeyState)

  /** The state of key `k` in `v`. */
  function Get(v: KeysValue, k: Key): KeyState
  {
    match k
    case A => v.a
    case W => v.w
    case S => v.s
    case D => v.d
    case SpaceKey => v.space
    case LShiftKey => v.lShift
    case LCtrlKey => v.lCtrl
    case UpKey => v.upKey
    case DownKey => v.downKey
    case LeftKey => v.leftKey
    case RightKey => v.rightKey
  }

  /** The record after `update_from_event(code, state)`. */
  function Updated(v: KeysValue, code: VirtualKeyCode, state: ElementState): KeysValue
  {
    var st := FromElementState(state);
    match code
    case KeyA => v.(a := st)
    case KeyW => v.(w := st)
    case KeyS => v.(s := st)
    case KeyD => v.(d := st)
    case Space => v.(space := st)
    case LShift => v.(lShift := st)
    case LControl => v.(lCtrl := st)
    case Up => v.(upKey := st)
    case Down => v.(downKey := st)
    case Left => v.(leftKey := st)
    case Right => v.(rightKey := st)
    case Escape => v
    case OtherKey(_) => v
  }

  /** An update sets exactly the field mapped to the key code and leaves the other ten
      unchanged; an unmapped code (Escape included) changes nothing. */
  lemma UpdatedSetsOneField(v: KeysValue, code: VirtualKeyCode, state: ElementState)
    ensures forall k :: Get(Updated(v, code, state), k) == (if FieldOf(code) == Some(k) then FromElementState(state) else Get(v, k))
    ensures FieldOf(code).None? ==> Updated(v, code, state) == v
  {
    forall k
      ensures Get(Updated(v, code, state), k) ==
        if FieldOf(code) == Some(k) then FromElementState(state) else Get(v, k)
    {
      match code
      case KeyA =>
      case KeyW =>
      case KeyS =>
      case KeyD =>
      case Space =>
      case LShift =>
      case LControl =>
      case Up =>
      case Down =>
      case Left =>
      case Right =>
      case Escape =>
      case OtherKey(_) =>
    }
  }

  /** `Keys`: the state of each tracked key. */
  class Keys {
    var a: KeyState
    var w: KeyState
    var s: KeyState
    var d: KeyState
    var space: KeyState
    var lShift: KeyState
    var lCtrl: KeyState
    var upKey: KeyState
    var downKey: KeyState
    var leftKey: KeyState
    var rightKey: KeyState

    /** The record's current value. */
    function Value(): KeysValue
      reads this
    {
      KeysValue(a, w, s, d, space, lShift, lCtrl, upKey, downKey, leftKey, rightKey)
    }

    /** `Keys::new()`, the derived default: every key released. */
    constructor ()
      ensures forall k :: Get(Value(), k) == DEFAULT_KEY_STATE
    {
      a, w, s, d := Released, Released, Released, Released;
      space, lShift, lCtrl := Released, Released, Released;
      upKey, downKey, leftKey, rightKey := Released, Released, Released, Released;
    }

    /** `update_from_event`: assigns the one field mapped to `code`. */
    method UpdateFromEvent(code: VirtualKeyCode, state: ElementState)
      modifies this
      ensures Value() == Updated(old(Value()), code, state)
    {
      var st := FromElementState(state);
      match code {
        case KeyA => a := st;
        case KeyW => w := st;
        case KeyS => s := st;
        case KeyD => d := st;
        case Space => space := st;
        case LShift => lShift := st;
        case LControl => lCtrl := st;
        case Up => upKey := st;
        case Down => downKey := st;
        case Left => leftKey := st;
        case Right => rightKey := st;
        case Escape =>
        case OtherKey(_) =>
      }
    }
  }
}
