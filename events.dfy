/**
 * Typed input events and the mouse-button mask (src/event/mod.rs).
 * The event channel itself is std's mpsc queue; in this model an event that
 * would be sent on it is returned or appended to a sequence instead.
 */
module Events {
  /** An octet, the unit the terminal decoder consumes. */
  newtype byte = x: int | 0 <= x < 256

  /** The library's `Flags` type is a 32-bit word. */
  type Flags = bv32

  /** Frame and display handles are 1-based indexes into slot tables; 0 means "none". */
  type FrameID = nat
  type DisplayID = nat

  // The MouseButton bit flags.
  const MouseNone: Flags := 0
  const LeftDown: Flags := 1
  const MiddleDown: Flags := 2
  const RightDown: Flags := 4

  datatype EventType =
    | Error(message: string)
    | Warning(message: string)
    | Character(character: char)
    | Escape
    | Backspace
    | Return
    | Left
    | Right
    | Up
    | Down
    | Pause
    | Insert
    | Delete
    | Home
    | End
    | PageUp
    | PageDown
    | Function(number: byte)
    | Alt(character: char)
    | Ctrl(character: char)
    | MouseOver
    | MouseLeftButtonPressed
    | MouseMiddleButtonPressed
    | MouseRightButtonPressed
    | MouseLeftButtonReleased
    | MouseMiddleButtonReleased
    | MouseRightButtonReleased
    | MouseWheelUp
    | MouseWheelDown
    | MouseMoveWithLeftButton
    | MouseMoveWithMiddleButton
    | MouseMoveWithRightButton
    | CursorPosition

  /** An event together with its routing data: display, target frame, cursor and mouse mask. */
  datatype Event = Event(
    event: EventType,
    display: DisplayID,
    frame: FrameID,
    cursorX: nat,
    cursorY: nat,
    mouse: Flags)
}
