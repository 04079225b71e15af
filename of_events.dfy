/**
 * The openFrameworks inputs the pointer library consumes: the raw touch
 * and mouse event records, the global key and mouse-button state
 * (ofGetKeyPressed, ofGetMousePressed), and the openFrameworks constants
 * the library's code refers to by name.
 *
 * openFrameworks itself is not part of this model. Its global input state is
 * passed in as an InputState value, and its constants are fixed below at
 * the values openFrameworks' ofConstants.h gives them.
 */
module OfEvents {
  import opened Basics

  /** ofTouchEventArgs::Type. */
  datatype TouchKind = TouchDown | TouchUp | TouchMove | TouchDoubleTap | TouchCancel

  /** The fields of ofTouchEventArgs the library reads; `pos` is its ofVec2f base. */
  datatype TouchEvent = TouchEvent(
    kind: TouchKind,
    pos: Vec2,
    id: int32,
    time: int32,
    numTouches: int32,
    width: real, height: real,
    angle: real,
    minoraxis: real, majoraxis: real,
    pressure: real,
    xspeed: real, yspeed: real,
    xaccel: real, yaccel: real)

  /** ofMouseEventArgs::Type. */
  datatype MouseKind = Pressed | Dragged | Moved | Released | Scrolled | Entered | Exited

  /** The fields of ofMouseEventArgs the library reads; `pos` is its ofVec2f base. */
  datatype MouseEvent = MouseEvent(kind: MouseKind, pos: Vec2, button: int32)

  /**
   * The global keyboard and mouse state at the moment an event is converted:
   * ofGetKeyPressed(k) holds iff k is in keysPressed, ofGetMousePressed(b)
   * iff b is in mouseButtonsPressed.
   */
  datatype InputState = InputState(keysPressed: set<int>, mouseButtonsPressed: set<int>)

  // openFrameworks key codes: every modifier key carries the OF_KEY_MODIFIER bit.
  const OF_KEY_MODIFIER: int := 0x0100
  const OF_KEY_CONTROL: int := 0x0300
  const OF_KEY_ALT: int := 0x0500
  const OF_KEY_SHIFT: int := 0x0900
  const OF_KEY_SUPER: int := 0x1100

  // openFrameworks mouse buttons are small indices, not bit masks.
  const OF_MOUSE_BUTTON_1: int := 0
  const OF_MOUSE_BUTTON_2: int := 1
  const OF_MOUSE_BUTTON_3: int := 2
  const OF_MOUSE_BUTTON_4: int := 3
  const OF_MOUSE_BUTTON_5: int := 4
  const OF_MOUSE_BUTTON_6: int := 5
  const OF_MOUSE_BUTTON_7: int := 6
  const OF_MOUSE_BUTTON_8: int := 7
  const OF_MOUSE_BUTTON_LEFT: int := OF_MOUSE_BUTTON_1
  const OF_MOUSE_BUTTON_MIDDLE: int := OF_MOUSE_BUTTON_2
  const OF_MOUSE_BUTTON_RIGHT: int := OF_MOUSE_BUTTON_3

  // openFrameworks event priorities.
  const OF_EVENT_ORDER_BEFORE_APP: int := 0
  const OF_EVENT_ORDER_APP: int := 100
  const OF_EVENT_ORDER_AFTER_APP: int := 200

  /**
   * The four successive `modifiers |= ofGetKeyPressed(K) ? K : 0` lines of
   * both newer converters. Because the key codes share OF_KEY_MODIFIER, the
   * low bit 0x100 says only that some modifier is down; the bits above it
   * name the key.
   */
  function ModifiersFromKeys(input: InputState): (r: bv64)
    ensures (r & 0x0200 != 0) <==> OF_KEY_CONTROL in input.keysPressed
    ensures (r & 0x0400 != 0) <==> OF_KEY_ALT in input.keysPressed
    ensures (r & 0x0800 != 0) <==> OF_KEY_SHIFT in input.keysPressed
    ensures (r & 0x1000 != 0) <==> OF_KEY_SUPER in input.keysPressed
    ensures (r & 0x0100 != 0) <==> (OF_KEY_CONTROL in input.keysPressed || OF_KEY_ALT in input.keysPressed
                                    || OF_KEY_SHIFT in input.keysPressed || OF_KEY_SUPER in input.keysPressed)
    ensures r & !0x1F00 == 0
  {
    var control: bv64 := if OF_KEY_CONTROL in input.keysPressed then 0x0300 else 0;
    var alt: bv64 := if OF_KEY_ALT in input.keysPressed then 0x0500 else 0;
    var shift: bv64 := if OF_KEY_SHIFT in input.keysPressed then 0x0900 else 0;
    var super: bv64 := if OF_KEY_SUPER in input.keysPressed then 0x1100 else 0;
    0 | control | alt | shift | super
  }

  /**
   * The seven successive `buttons |= ofGetMousePressed(OF_MOUSE_BUTTON_i) ?
   * (1 << OF_MOUSE_BUTTON_i) : 0` lines of both newer mouse converters:
   * bit i-1 is set exactly when mouse button i (1..7) is down, and
   * button 8 is never consulted.
   */
  function ButtonsFromMouse(input: InputState): (r: bv64)
    ensures (r & 0x01 != 0) <==> OF_MOUSE_BUTTON_1 in input.mouseButtonsPressed
    ensures (r & 0x02 != 0) <==> OF_MOUSE_BUTTON_2 in input.mouseButtonsPressed
    ensures (r & 0x04 != 0) <==> OF_MOUSE_BUTTON_3 in input.mouseButtonsPressed
    ensures (r & 0x08 != 0) <==> OF_MOUSE_BUTTON_4 in input.mouseButtonsPressed
    ensures (r & 0x10 != 0) <==> OF_MOUSE_BUTTON_5 in input.mouseButtonsPressed
    ensures (r & 0x20 != 0) <==> OF_MOUSE_BUTTON_6 in input.mouseButtonsPressed
    ensures (r & 0x40 != 0) <==> OF_MOUSE_BUTTON_7 in input.mouseButtonsPressed
    ensures r & !0x7F == 0
  {
    // 1 << OF_MOUSE_BUTTON_i, written out.
    var b := input.mouseButtonsPressed;
    var b1: bv64 := if OF_MOUSE_BUTTON_1 in b then 0x01 else 0;
    var b2: bv64 := if OF_MOUSE_BUTTON_2 in b then 0x02 else 0;
    var b3: bv64 := if OF_MOUSE_BUTTON_3 in b then 0x04 else 0;
    var b4: bv64 := if OF_MOUSE_BUTTON_4 in b then 0x08 else 0;
    var b5: bv64 := if OF_MOUSE_BUTTON_5 in b then 0x10 else 0;
    var b6: bv64 := if OF_MOUSE_BUTTON_6 in b then 0x20 else 0;
    var b7: bv64 := if OF_MOUSE_BUTTON_7 in b then 0x40 else 0;
    0 | b1 | b2 | b3 | b4 | b5 | b6 | b7
  }
}
