/**
 * The oldest generation of the library: `ofx::Input::PointerEventArgs`
 * (includes/ofx/Input/PointerEventArgs.h with src/PointerEventArgs.cpp).
 * Its event and device types are enums, its buttons are a nibble-spaced
 * bit mask of its own (POINTER_BUTTON_i is 16^(i-1)), and `toString`
 * writes a label, the position and one line per pressed modifier and
 * button.
 *
 * `unsigned int` is 32 bits wide; the modifier and button masks are `bv32`.
 * Printing an ofVec3f is openFrameworks code and is passed in as `fmt`.
 */
module InputEventArgs {
  import opened Basics
  import opened OfEvents

  datatype EventType = EVENT_UNKNOWN | EVENT_DOWN | EVENT_UP | EVENT_MOVE | EVENT_DOUBLE_TAP | EVENT_CANCEL

  datatype DeviceType = DEVICE_UNKNOWN | DEVICE_MOUSE | DEVICE_TOUCH | DEVICE_PEN

  /** The enum values of DeviceType. */
  function DeviceTypeValue(d: DeviceType): (r: int)
    ensures -1 <= r <= 2
    ensures r == -1 <==> d == DEVICE_UNKNOWN
  {
    match d
    case DEVICE_UNKNOWN => -1
    case DEVICE_MOUSE => 0
    case DEVICE_TOUCH => 1
    case DEVICE_PEN => 2
  }

  /** The four device types have four different values. */
  lemma DeviceTypeValuesDistinct(a: DeviceType, b: DeviceType)
    ensures DeviceTypeValue(a) == DeviceTypeValue(b) <==> a == b
  {
  }

  // The Buttons enum.
  const POINTER_BUTTON_1: bv32 := 0x00000001
  const POINTER_BUTTON_2: bv32 := 0x00000010
  const POINTER_BUTTON_3: bv32 := 0x00000100
  const POINTER_BUTTON_4: bv32 := 0x00001000
  const POINTER_BUTTON_5: bv32 := 0x00010000
  const POINTER_BUTTON_6: bv32 := 0x00100000
  const POINTER_BUTTON_7: bv32 := 0x01000000
  const POINTER_BUTTON_8: bv32 := 0x10000000
  const POINTER_BUTTON_LAST: bv32 := POINTER_BUTTON_8
  const POINTER_BUTTON_LEFT: bv32 := POINTER_BUTTON_1
  const POINTER_BUTTON_MIDDLE: bv32 := POINTER_BUTTON_2
  const POINTER_BUTTON_RIGHT: bv32 := POINTER_BUTTON_3

  // The openFrameworks modifier key codes, converted to `unsigned int`.
  const KEY_CONTROL_MASK: bv32 := 0x0300
  const KEY_ALT_MASK: bv32 := 0x0500
  const KEY_SHIFT_MASK: bv32 := 0x0900
  const KEY_SUPER_MASK: bv32 := 0x1100
  const KEY_MODIFIER_MASK: bv32 := 0x0100

  /** The masks are the openFrameworks key codes. */
  lemma KeyMasksAreKeyCodes()
    ensures KEY_CONTROL_MASK as int == OF_KEY_CONTROL && KEY_ALT_MASK as int == OF_KEY_ALT
    ensures KEY_SHIFT_MASK as int == OF_KEY_SHIFT && KEY_SUPER_MASK as int == OF_KEY_SUPER
    ensures KEY_MODIFIER_MASK as int == OF_KEY_MODIFIER
  {
  }

  /** POINTER_BUTTON_1 .. POINTER_BUTTON_8 in order. */
  const PointerButtons: seq<bv32> := [POINTER_BUTTON_1, POINTER_BUTTON_2, POINTER_BUTTON_3, POINTER_BUTTON_4,
                                      POINTER_BUTTON_5, POINTER_BUTTON_6, POINTER_BUTTON_7, POINTER_BUTTON_8]

  /** 16 to the power n. */
  function Pow16(n: nat): (r: nat)
    ensures r > 0
  {
    if n == 0 then 1 else 16 * Pow16(n - 1)
  }

  /** POINTER_BUTTON_i is 16^(i-1). */
  lemma ButtonsArePowersOf16()
    ensures forall i :: 0 <= i < |PointerButtons| ==> PointerButtons[i] as int == Pow16(i)
  {
    assert Pow16(0) == 1 && Pow16(1) == 0x10 && Pow16(2) == 0x100 && Pow16(3) == 0x1000;
    assert Pow16(4) == 0x1_0000 && Pow16(5) == 0x10_0000 && Pow16(6) == 0x100_0000 && Pow16(7) == 0x1000_0000;
  }

  /** The eight buttons are eight distinct single bits. */
  lemma ButtonsDisjoint()
    ensures forall i, j :: 0 <= i < |PointerButtons| && 0 <= j < |PointerButtons| && i != j ==>
              PointerButtons[i] & PointerButtons[j] == 0
    ensures forall i :: 0 <= i < |PointerButtons| ==> PointerButtons[i] != 0
  {
  }

  /** The aliases of the Buttons enum. */
  lemma ButtonAliases()
    ensures POINTER_BUTTON_LEFT == PointerButtons[0] && POINTER_BUTTON_MIDDLE == PointerButtons[1]
    ensures POINTER_BUTTON_RIGHT == PointerButtons[2] && POINTER_BUTTON_LAST == PointerButtons[7]
  {
  }

  datatype PointerEventArgs = PointerEventArgs(
    eventType: EventType,
    deviceType: DeviceType,
    frameId: uint32,
    id: uint32,
    deviceId: uint32,
    windowId: uint32,
    pointerId: uint32,
    pointerCount: uint32,
    width: real,
    height: real,
    angle: real,
    minorAxis: real,
    majorAxis: real,
    pressure: real,
    tapCount: uint32,
    modifiers: bv32,
    buttons: bv32,
    isInContact: bool,
    position: Vec3,
    lastPosition: Vec3,
    velocity: Vec3,
    acceleration: Vec3,
    timeStamp: uint64)

  /** PointerEventArgs(): unknown event and device, everything 0, not in contact. */
  function DefaultArgs(): (r: PointerEventArgs)
    ensures r.eventType == EVENT_UNKNOWN && r.deviceType == DEVICE_UNKNOWN
    ensures r.frameId == 0 && r.id == 0 && r.deviceId == 0 && r.windowId == 0
    ensures r.pointerId == 0 && r.pointerCount == 0 && r.tapCount == 0
    ensures r.modifiers == 0 && r.buttons == 0 && !r.isInContact
    ensures r.width == 0.0 && r.height == 0.0 && r.angle == 0.0 && r.minorAxis == 0.0
    ensures r.majorAxis == 0.0 && r.pressure == 0.0
    ensures r.position == Origin3 && r.lastPosition == Origin3 && r.velocity == Origin3
    ensures r.acceleration == Origin3 && r.timeStamp == 0
  {
    PointerEventArgs(EVENT_UNKNOWN, DEVICE_UNKNOWN, 0, 0, 0, 0, 0, 0, 0.0, 0.0, 0.0, 0.0, 0.0, 0.0, 0,
                     0, 0, false, Origin3, Origin3, Origin3, Origin3, 0)
  }

  /** The event type a touch kind maps to: each to its namesake. */
  function TouchEventType(k: TouchKind): EventType
  {
    match k
    case TouchDown => EVENT_DOWN
    case TouchUp => EVENT_UP
    case TouchMove => EVENT_MOVE
    case TouchDoubleTap => EVENT_DOUBLE_TAP
    case TouchCancel => EVENT_CANCEL
  }

  /**
   * PointerEventArgs(ofTouchEventArgs) (src/PointerEventArgs.cpp:60-103):
   * the touch's own data is copied, it is in contact, and the device type
   * stays unknown. The `int` fields are converted to `unsigned int` and
   * `unsigned long long`.
   */
  function FromTouch(e: TouchEvent): (r: PointerEventArgs)
    ensures r.eventType == EVENT_DOWN <==> e.kind == TouchDown
    ensures r.eventType == EVENT_UP <==> e.kind == TouchUp
    ensures r.eventType == EVENT_MOVE <==> e.kind == TouchMove
    ensures r.eventType == EVENT_DOUBLE_TAP <==> e.kind == TouchDoubleTap
    ensures r.eventType == EVENT_CANCEL <==> e.kind == TouchCancel
    ensures r.eventType != EVENT_UNKNOWN
    ensures r.isInContact && r.deviceType == DEVICE_UNKNOWN
    ensures r.id == ToUint32(e.id as int) && r.pointerCount == ToUint32(e.numTouches as int)
    ensures r.timeStamp == ToUint64(e.time as int)
    ensures r.frameId == 0 && r.deviceId == 0 && r.windowId == 0 && r.pointerId == 0 && r.tapCount == 0
    ensures r.modifiers == 0 && r.buttons == 0
    ensures r.width == e.width && r.height == e.height && r.angle == e.angle
    ensures r.majorAxis == e.majoraxis && r.minorAxis == e.minoraxis && r.pressure == e.pressure
    ensures r.position == Lift(e.pos) && r.lastPosition == Origin3
    ensures r.velocity == Vec3(e.xspeed, e.yspeed, 0.0) && r.acceleration == Vec3(e.xaccel, e.yaccel, 0.0)
  {
    PointerEventArgs(TouchEventType(e.kind), DEVICE_UNKNOWN, 0, ToUint32(e.id as int), 0, 0, 0,
                     ToUint32(e.numTouches as int), e.width, e.height, e.angle, e.minoraxis, e.majoraxis,
                     e.pressure, 0, 0, 0, true, Lift(e.pos), Origin3,
                     Lift(Vec2(e.xspeed, e.yspeed)), Lift(Vec2(e.xaccel, e.yaccel)), ToUint64(e.time as int))
  }

  /** The type, pressure and contact a mouse kind sets; any other kind keeps the initial values. */
  function MouseTypePressureContact(k: MouseKind): (EventType, real, bool)
  {
    match k
    case Pressed => (EVENT_DOWN, 1.0, true)
    case Moved => (EVENT_MOVE, 0.0, false)
    case Released => (EVENT_UP, 0.0, true)
    case Dragged => (EVENT_MOVE, 1.0, true)
    case _ => (EVENT_UNKNOWN, 0.0, false)
  }

  /**
   * The eight `if (ofGetMousePressed(OF_MOUSE_BUTTON_i)) _buttons |=
   * POINTER_BUTTON_i` lines, starting from 0.
   */
  function PointerButtonsFromMouse(input: InputState): (r: bv32)
    ensures (r & POINTER_BUTTON_1 != 0) <==> OF_MOUSE_BUTTON_1 in input.mouseButtonsPressed
    ensures (r & POINTER_BUTTON_2 != 0) <==> OF_MOUSE_BUTTON_2 in input.mouseButtonsPressed
    ensures (r & POINTER_BUTTON_3 != 0) <==> OF_MOUSE_BUTTON_3 in input.mouseButtonsPressed
    ensures (r & POINTER_BUTTON_4 != 0) <==> OF_MOUSE_BUTTON_4 in input.mouseButtonsPressed
    ensures (r & POINTER_BUTTON_5 != 0) <==> OF_MOUSE_BUTTON_5 in input.mouseButtonsPressed
    ensures (r & POINTER_BUTTON_6 != 0) <==> OF_MOUSE_BUTTON_6 in input.mouseButtonsPressed
    ensures (r & POINTER_BUTTON_7 != 0) <==> OF_MOUSE_BUTTON_7 in input.mouseButtonsPressed
    ensures (r & POINTER_BUTTON_8 != 0) <==> OF_MOUSE_BUTTON_8 in input.mouseButtonsPressed
    ensures r & !0x1111_1111 == 0
  {
    var b := input.mouseButtonsPressed;
    var b1: bv32 := if OF_MOUSE_BUTTON_1 in b then POINTER_BUTTON_1 else 0;
    var b2: bv32 := if OF_MOUSE_BUTTON_2 in b then POINTER_BUTTON_2 else 0;
    var b3: bv32 := if OF_MOUSE_BUTTON_3 in b then POINTER_BUTTON_3 else 0;
    var b4: bv32 := if OF_MOUSE_BUTTON_4 in b then POINTER_BUTTON_4 else 0;
    var b5: bv32 := if OF_MOUSE_BUTTON_5 in b then POINTER_BUTTON_5 else 0;
    var b6: bv32 := if OF_MOUSE_BUTTON_6 in b then POINTER_BUTTON_6 else 0;
    var b7: bv32 := if OF_MOUSE_BUTTON_7 in b then POINTER_BUTTON_7 else 0;
    var b8: bv32 := if OF_MOUSE_BUTTON_8 in b then POINTER_BUTTON_8 else 0;
    0 | b1 | b2 | b3 | b4 | b5 | b6 | b7 | b8
  }

  /**
   * PointerEventArgs(ofMouseEventArgs) (src/PointerEventArgs.cpp:106-166).
   * `_buttons` is initialised from `evt.button` and then reset to 0, so the
   * event's button is discarded. `_modifiers` is never initialised: whatever
   * it holds is the `modifiers` parameter. `now` is ofGetSystemTime().
   */
  function FromMouse(e: MouseEvent, input: InputState, now: uint64, modifiers: bv32): (r: PointerEventArgs)
    ensures r.eventType == EVENT_DOWN <==> e.kind == Pressed
    ensures r.eventType == EVENT_UP <==> e.kind == Released
    ensures r.eventType == EVENT_MOVE <==> (e.kind == Moved || e.kind == Dragged)
    ensures r.eventType == EVENT_UNKNOWN <==> e.kind in {Scrolled, Entered, Exited}
    ensures r.pressure == (if e.kind in {Pressed, Dragged} then 1.0 else 0.0)
    ensures r.isInContact <==> e.kind in {Pressed, Released, Dragged}
    ensures r.buttons == PointerButtonsFromMouse(input)
    ensures r.modifiers == modifiers && r.timeStamp == now
    ensures r.deviceType == DEVICE_UNKNOWN && r.id == 0 && r.pointerCount == 0
    ensures r.position == Lift(e.pos) && r.velocity == Origin3 && r.acceleration == Origin3
    ensures r.frameId == 0 && r.deviceId == 0 && r.windowId == 0 && r.pointerId == 0 && r.tapCount == 0
    ensures r.width == 0.0 && r.height == 0.0 && r.angle == 0.0 && r.majorAxis == 0.0 && r.minorAxis == 0.0
    ensures r.lastPosition == Origin3
  {
    var (eventType, pressure, contact) := MouseTypePressureContact(e.kind);
    PointerEventArgs(eventType, DEVICE_UNKNOWN, 0, 0, 0, 0, 0, 0, 0.0, 0.0, 0.0, 0.0, 0.0, pressure, 0,
                     modifiers, PointerButtonsFromMouse(input), contact, Lift(e.pos), Origin3,
                     Origin3, Origin3, now)
  }

  /** Two mouse events with the same buttons down have the same buttons, whichever button each reports. */
  lemma MouseButtonDiscarded(e1: MouseEvent, e2: MouseEvent, input: InputState, now: uint64, m: bv32)
    requires e1.kind == e2.kind && e1.pos == e2.pos
    ensures FromMouse(e1, input, now, m) == FromMouse(e2, input, now, m)
  {
  }

  /** isModifierPressed(m): some bit of `m` is among the modifiers. */
  function IsModifierPressed(a: PointerEventArgs, m: bv32): (r: bool)
    ensures r <==> a.modifiers & m != 0
    ensures m == 0 ==> !r
  {
    a.modifiers & m != 0
  }

  /** isButtonPressed(b): some bit of `b` is among the buttons. */
  function IsButtonPressed(a: PointerEventArgs, b: bv32): (r: bool)
    ensures r <==> a.buttons & b != 0
    ensures b == 0 ==> !r
  {
    a.buttons & b != 0
  }

  /** After a mouse conversion, button i reads as pressed exactly when mouse button i is down. */
  lemma MouseButtonsReadBack(e: MouseEvent, input: InputState, now: uint64, m: bv32)
    ensures var a := FromMouse(e, input, now, m);
            && (IsButtonPressed(a, POINTER_BUTTON_LEFT) <==> OF_MOUSE_BUTTON_LEFT in input.mouseButtonsPressed)
            && (IsButtonPressed(a, POINTER_BUTTON_MIDDLE) <==> OF_MOUSE_BUTTON_MIDDLE in input.mouseButtonsPressed)
            && (IsButtonPressed(a, POINTER_BUTTON_RIGHT) <==> OF_MOUSE_BUTTON_RIGHT in input.mouseButtonsPressed)
  {
  }

  /** operator==: always false, even for an event compared with itself. */
  function Equals(a: PointerEventArgs, b: PointerEventArgs): (r: bool)
    ensures !r
  {
    false
  }

  /** operator!=: the negation of operator==, hence always true. */
  function NotEquals(a: PointerEventArgs, b: PointerEventArgs): (r: bool)
    ensures r
    ensures r == !Equals(a, b)
  {
    !Equals(a, b)
  }

  // ---------------------------------------------------------------------------
  // toString.

  /** The label of each event type. */
  function Label(t: EventType): string
  {
    match t
    case EVENT_UNKNOWN => "UNKNOWN"
    case EVENT_DOWN => "DOWN"
    case EVENT_UP => "UP"
    case EVENT_MOVE => "MOVE"
    case EVENT_DOUBLE_TAP => "DOUBLE_TAP"
    case EVENT_CANCEL => "CANCEL"
  }

  /** The six event types have six different labels. */
  lemma LabelsDistinct(a: EventType, b: EventType)
    ensures Label(a) == Label(b) <==> a == b
  {
  }

  /** One optional line of toString: its text, whether it tests modifiers or buttons, and the mask. */
  datatype Flag = Flag(name: string, isModifier: bool, mask: bv32)

  predicate FlagSet(a: PointerEventArgs, f: Flag)
  {
    if f.isModifier then IsModifierPressed(a, f.mask) else IsButtonPressed(a, f.mask)
  }

  /*
   * What toString prints about the flags is proved by induction over the
   * flag table: SetFlagsInOrder (with SkipHead and DropHead) gives the order,
   * SetFlagsIff which names appear, and AppendedIsSetFlags that the chained
   * `if ... ss << ...` lines print exactly SetFlags. The contracts of
   * SetFlags and Names state only the lengths and elements these
   * inductions use.
   */

  /** The names of the flags of `fs` that are set, in the order of `fs`. */
  function SetFlags(a: PointerEventArgs, fs: seq<Flag>): (r: seq<string>)
    ensures |r| <= |fs|
  {
    if |fs| == 0 then []
    else (if FlagSet(a, fs[0]) then [fs[0].name] else []) + SetFlags(a, fs[1..])
  }

  /** The names of all the flags of `fs`. */
  function Names(fs: seq<Flag>): (r: seq<string>)
    ensures |r| == |fs|
    ensures forall i :: 0 <= i < |fs| ==> r[i] == fs[i].name
  {
    if |fs| == 0 then [] else [fs[0].name] + Names(fs[1..])
  }

  /** `xs` is `ys` with some elements left out, the rest in their order. */
  predicate IsSubsequence(xs: seq<string>, ys: seq<string>)
    decreases |ys|
  {
    if |xs| == 0 then true
    else if |ys| == 0 then false
    else if xs[0] == ys[0] then IsSubsequence(xs[1..], ys[1..])
    else IsSubsequence(xs, ys[1..])
  }

  lemma {:induction false} EmptySubsequence(ys: seq<string>)
    ensures IsSubsequence([], ys)
  {
  }

  /** The lines printed keep the order of the table. */
  lemma {:induction false} SetFlagsInOrder(a: PointerEventArgs, fs: seq<Flag>)
    ensures IsSubsequence(SetFlags(a, fs), Names(fs))
    decreases |fs|
  {
    if |fs| > 0 {
      SetFlagsInOrder(a, fs[1..]);
      assert Names(fs)[1..] == Names(fs[1..]);
      var rest := SetFlags(a, fs[1..]);
      if FlagSet(a, fs[0]) {
        assert SetFlags(a, fs) == [fs[0].name] + rest;
        assert ([fs[0].name] + rest)[1..] == rest;
      } else {
        assert SetFlags(a, fs) == rest;
        SkipHead(rest, Names(fs));
      }
    }
  }

  /** A subsequence of the tail is a subsequence of the whole. */
  lemma {:induction false} SkipHead(xs: seq<string>, ys: seq<string>)
    requires |ys| > 0 && IsSubsequence(xs, ys[1..])
    ensures IsSubsequence(xs, ys)
    decreases |xs| + |ys|, 1
  {
    if |xs| > 0 && xs[0] == ys[0] {
      DropHead(xs, ys[1..]);
    }
  }

  /** Dropping the first element of a subsequence keeps it a subsequence. */
  lemma {:induction false} DropHead(xs: seq<string>, ys: seq<string>)
    requires |xs| > 0 && IsSubsequence(xs, ys)
    ensures IsSubsequence(xs[1..], ys)
    decreases |xs| + |ys|, 0
  {
    if xs[0] == ys[0] {
      SkipHead(xs[1..], ys);
    } else {
      DropHead(xs, ys[1..]);
      SkipHead(xs[1..], ys);
    }
  }

  /** No two flags of the table have the same name. */
  predicate DistinctNames(fs: seq<Flag>)
  {
    forall i, j :: 0 <= i < j < |fs| ==> fs[i].name != fs[j].name
  }

  /** A flag's line is printed exactly when the flag is set (the names being distinct). */
  lemma {:induction false} SetFlagsIff(a: PointerEventArgs, fs: seq<Flag>, f: Flag)
    requires f in fs && DistinctNames(fs)
    ensures f.name in SetFlags(a, fs) <==> FlagSet(a, f)
    decreases |fs|
  {
    var head := if FlagSet(a, fs[0]) then [fs[0].name] else [];
    var rest := SetFlags(a, fs[1..]);
    assert SetFlags(a, fs) == head + rest;
    if fs[0] == f {
      SetFlagsNamesFrom(a, fs[1..]);
      assert f.name !in Names(fs[1..]) by {
        forall i | 0 <= i < |fs| - 1
          ensures Names(fs[1..])[i] != f.name
        {
          assert fs[1..][i] == fs[i + 1];
        }
      }
      assert f.name !in rest;
    } else {
      var k :| 0 <= k < |fs| && fs[k] == f;
      assert fs[1..][k - 1] == f;
      assert DistinctNames(fs[1..]) by {
        forall i, j | 0 <= i < j < |fs| - 1
          ensures fs[1..][i].name != fs[1..][j].name
        {
          assert fs[1..][i] == fs[i + 1] && fs[1..][j] == fs[j + 1];
        }
      }
      SetFlagsIff(a, fs[1..], f);
      assert fs[0].name != f.name;
      assert f.name !in head;
    }
  }

  /** Every printed name is a name of the table. */
  lemma {:induction false} SetFlagsNamesFrom(a: PointerEventArgs, fs: seq<Flag>)
    ensures forall n :: n in SetFlags(a, fs) ==> n in Names(fs)
    decreases |fs|
  {
    if |fs| > 0 {
      SetFlagsNamesFrom(a, fs[1..]);
      assert Names(fs) == [fs[0].name] + Names(fs[1..]);
    }
  }

  // The seven optional lines of toString, in the order it tests them.
  const CONTROL_LINE := Flag("OF_KEY_CONTROL", true, KEY_CONTROL_MASK)
  const ALT_LINE := Flag("OF_KEY_ALT", true, KEY_ALT_MASK)
  const SHIFT_LINE := Flag("OF_KEY_SHIFT", true, KEY_SHIFT_MASK)
  const SUPER_LINE := Flag("OF_KEY_SUPER", true, KEY_SUPER_MASK)
  const LEFT_LINE := Flag("POINTER_BUTTON_LEFT", false, POINTER_BUTTON_LEFT)
  const MIDDLE_LINE := Flag("POINTER_BUTTON_MIDDLE", false, POINTER_BUTTON_MIDDLE)
  const RIGHT_LINE := Flag("POINTER_BUTTON_RIGHT", false, POINTER_BUTTON_RIGHT)
  const ToStringFlags: seq<Flag> := [CONTROL_LINE, ALT_LINE, SHIFT_LINE, SUPER_LINE, LEFT_LINE, MIDDLE_LINE, RIGHT_LINE]

  /** Each name preceded by a line break and a tab. */
  function EndlTabLines(names: seq<string>): string
  {
    if |names| == 0 then "" else "\n\t" + names[0] + EndlTabLines(names[1..])
  }

  /** `ss << endl << "\t" << name` when the flag is set. */
  function EndlTabLine(a: PointerEventArgs, f: Flag): string
  {
    if FlagSet(a, f) then "\n\t" + f.name else ""
  }

  /** toString (includes/ofx/Input/PointerEventArgs.h:106-146). */
  function ToString(a: PointerEventArgs, fmt: Vec3 -> string): string
  {
    Label(a.eventType) + " pos: " + fmt(a.position)
    + EndlTabLine(a, CONTROL_LINE) + EndlTabLine(a, ALT_LINE) + EndlTabLine(a, SHIFT_LINE) + EndlTabLine(a, SUPER_LINE)
    + EndlTabLine(a, LEFT_LINE) + EndlTabLine(a, MIDDLE_LINE) + EndlTabLine(a, RIGHT_LINE)
  }

  /** `acc` followed by one conditional append per flag of the table, in order. */
  function Appended(acc: string, a: PointerEventArgs, fs: seq<Flag>): string
    decreases |fs|
  {
    if |fs| == 0 then acc else Appended(acc + EndlTabLine(a, fs[0]), a, fs[1..])
  }

  /** One conditional append, whether or not its flag is set, extends the printed names by that flag's. */
  lemma EndlTabLineStep(acc: string, line: string, name: string, isSet: bool, rest: seq<string>)
    requires line == if isSet then "\n\t" + name else ""
    ensures (acc + line) + EndlTabLines(rest) == acc + EndlTabLines((if isSet then [name] else []) + rest)
  {
    if isSet {
      assert ([name] + rest)[0] == name && ([name] + rest)[1..] == rest;
    } else {
      assert [] + rest == rest;
    }
  }

  /** The conditional appends of a table print exactly the names of its set flags. */
  lemma {:induction false} AppendedIsSetFlags(acc: string, a: PointerEventArgs, fs: seq<Flag>)
    ensures Appended(acc, a, fs) == acc + EndlTabLines(SetFlags(a, fs))
    decreases |fs|
  {
    if |fs| > 0 {
      var line := EndlTabLine(a, fs[0]);
      AppendedIsSetFlags(acc + line, a, fs[1..]);
      EndlTabLineStep(acc, line, fs[0].name, FlagSet(a, fs[0]), SetFlags(a, fs[1..]));
    }
  }

  /** toString's seven conditional appends are the appends of its table. */
  lemma ToStringIsAppended(a: PointerEventArgs, fmt: Vec3 -> string)
    ensures ToString(a, fmt) == Appended(Label(a.eventType) + " pos: " + fmt(a.position), a, ToStringFlags)
  {
    var fs := ToStringFlags;
    var h := Label(a.eventType) + " pos: " + fmt(a.position);
    var h1 := h + EndlTabLine(a, CONTROL_LINE);
    var h2 := h1 + EndlTabLine(a, ALT_LINE);
    var h3 := h2 + EndlTabLine(a, SHIFT_LINE);
    var h4 := h3 + EndlTabLine(a, SUPER_LINE);
    var h5 := h4 + EndlTabLine(a, LEFT_LINE);
    var h6 := h5 + EndlTabLine(a, MIDDLE_LINE);
    var h7 := h6 + EndlTabLine(a, RIGHT_LINE);
    assert Appended(h7, a, fs[7..]) == h7;
    assert Appended(h6, a, fs[6..]) == h7 by { assert fs[6..][1..] == fs[7..]; }
    assert Appended(h5, a, fs[5..]) == h7 by { assert fs[5..][1..] == fs[6..]; }
    assert Appended(h4, a, fs[4..]) == h7 by { assert fs[4..][1..] == fs[5..]; }
    assert Appended(h3, a, fs[3..]) == h7 by { assert fs[3..][1..] == fs[4..]; }
    assert Appended(h2, a, fs[2..]) == h7 by { assert fs[2..][1..] == fs[3..]; }
    assert Appended(h1, a, fs[1..]) == h7 by { assert fs[1..][1..] == fs[2..]; }
  }

  /** The seven lines have seven different names. */
  lemma ToStringFlagsDistinct()
    ensures DistinctNames(ToStringFlags)
  {
  }

  /**
   * toString is the label, " pos: ", the position and then one line per
   * set flag of the table, each set flag printed and in the table's order.
   */
  lemma ToStringStructure(a: PointerEventArgs, fmt: Vec3 -> string)
    ensures ToString(a, fmt) == Label(a.eventType) + " pos: " + fmt(a.position) + EndlTabLines(SetFlags(a, ToStringFlags))
    ensures IsSubsequence(SetFlags(a, ToStringFlags), Names(ToStringFlags))
    ensures forall f :: f in ToStringFlags ==> (f.name in SetFlags(a, ToStringFlags) <==> FlagSet(a, f))
  {
    ToStringIsAppended(a, fmt);
    AppendedIsSetFlags(Label(a.eventType) + " pos: " + fmt(a.position), a, ToStringFlags);
    SetFlagsInOrder(a, ToStringFlags);
    ToStringFlagsDistinct();
    forall f | f in ToStringFlags
      ensures f.name in SetFlags(a, ToStringFlags) <==> FlagSet(a, f)
    {
      SetFlagsIff(a, ToStringFlags, f);
    }
  }

  /** With no modifier bits and none of the three buttons, toString is the first line alone. */
  lemma ToStringNothingSet(a: PointerEventArgs, fmt: Vec3 -> string)
    requires a.modifiers & 0x1F00 == 0 && a.buttons & 0x111 == 0
    ensures ToString(a, fmt) == Label(a.eventType) + " pos: " + fmt(a.position)
  {
  }

  /**
   * Every modifier key code carries the OF_KEY_MODIFIER bit, so a modifier
   * mask holding that bit alone prints all four modifier lines.
   */
  lemma SharedModifierBitPrintsAll(a: PointerEventArgs)
    requires a.modifiers == KEY_MODIFIER_MASK
    ensures IsModifierPressed(a, KEY_CONTROL_MASK) && IsModifierPressed(a, KEY_ALT_MASK)
    ensures IsModifierPressed(a, KEY_SHIFT_MASK) && IsModifierPressed(a, KEY_SUPER_MASK)
  {
  }
}
