/**
 * The value types of the newest generation of the library
 * (src/PointerEvents.cpp with include/ofx/PointerEvents.h): `PointShape`,
 * `Point` with its chain of delegating constructors, and
 * `PointerEventArgs` with its W3C-style event-type names ("pointerdown",
 * ...), its hashed pointer id, its tap-tracking key, and the two converters
 * from raw openFrameworks events.
 */
module PointerEventArgs {
  import opened Basics
  import opened OfEvents
  import opened HashCombine

  /** An `ofAppBaseWindow*`: null, or one window among many. */
  datatype Window = NullWindow | Window(handle: nat)

  datatype PointShape = PointShape(
    width: real,
    height: real,
    ellipseMajorAxis: real,
    ellipseMinorAxis: real,
    ellipseAngle: real)

  /** PointShape() delegates to PointShape(0, 0, 0, 0, 0). */
  function DefaultShape(): (r: PointShape)
    ensures r.width == 0.0 && r.height == 0.0
    ensures r.ellipseMajorAxis == 0.0 && r.ellipseMinorAxis == 0.0 && r.ellipseAngle == 0.0
  {
    PointShape(0.0, 0.0, 0.0, 0.0, 0.0)
  }

  /** The eight-argument constructor: every field is its argument. */
  datatype Point = Point(
    position: Vec3,
    absolutePosition: Vec3,
    shape: PointShape,
    pressure: real,
    tangentialPressure: real,
    rotation: real,
    tiltX: real,
    tiltY: real)

  /** Point(position, shape, pressure): the absolute position is the position. */
  function PointWithPressure(position: Vec3, shape: PointShape, pressure: real): (r: Point)
    ensures r.position == position && r.absolutePosition == position
    ensures r.shape == shape && r.pressure == pressure
    ensures r.tangentialPressure == 0.0 && r.rotation == 0.0 && r.tiltX == 0.0 && r.tiltY == 0.0
  {
    Point(position, position, shape, pressure, 0.0, 0.0, 0.0, 0.0)
  }

  /** Point(position, pressure, tiltX, tiltY): the default shape and the given tilts. */
  function PointWithTilt(position: Vec3, pressure: real, tiltX: real, tiltY: real): (r: Point)
    ensures r.position == position && r.absolutePosition == position
    ensures r.shape == DefaultShape() && r.pressure == pressure
    ensures r.tiltX == tiltX && r.tiltY == tiltY
    ensures r.tangentialPressure == 0.0 && r.rotation == 0.0
  {
    Point(position, position, DefaultShape(), pressure, 0.0, 0.0, tiltX, tiltY)
  }

  /**
   * Point(position, shape) delegates to Point(position, PointShape(), 0):
   * the shape it is given is discarded.
   */
  function PointWithShape(position: Vec3, shape: PointShape): (r: Point)
    ensures r.position == position && r.absolutePosition == position
    ensures r.shape == DefaultShape() && r.pressure == 0.0
    ensures r.tangentialPressure == 0.0 && r.rotation == 0.0 && r.tiltX == 0.0 && r.tiltY == 0.0
  {
    PointWithPressure(position, DefaultShape(), 0.0)
  }

  /** Point(position) delegates to Point(position, PointShape()). */
  function PointAt(position: Vec3): (r: Point)
    ensures r.position == position && r.absolutePosition == position
    ensures r.shape == DefaultShape() && r.pressure == 0.0
    ensures r.tangentialPressure == 0.0 && r.rotation == 0.0 && r.tiltX == 0.0 && r.tiltY == 0.0
  {
    PointWithShape(position, DefaultShape())
  }

  /** Point() delegates to Point(glm::vec3(0, 0, 0)). */
  function DefaultPoint(): (r: Point)
    ensures r.position == Origin3 && r.absolutePosition == Origin3
    ensures r.shape == DefaultShape() && r.pressure == 0.0
    ensures r.tangentialPressure == 0.0 && r.rotation == 0.0 && r.tiltX == 0.0 && r.tiltY == 0.0
  {
    PointAt(Origin3)
  }

  /** Whatever shape Point(position, shape) is given, it builds the same point as Point(position). */
  lemma PointWithShapeIgnoresShape(position: Vec3, s1: PointShape, s2: PointShape)
    ensures PointWithShape(position, s1) == PointWithShape(position, s2) == PointAt(position)
  {
  }

  /** Point(position, shape, pressure), unlike Point(position, shape), keeps the shape. */
  lemma ShapeKeptOnlyWithPressure(position: Vec3, shape: PointShape)
    requires shape != DefaultShape()
    ensures PointWithPressure(position, shape, 0.0).shape == shape
    ensures PointWithShape(position, shape) != PointWithPressure(position, shape, 0.0)
  {
  }

  /** Point(position, pressure, 0, 0) is Point(position, PointShape(), pressure). */
  lemma TiltChainAgrees(position: Vec3, pressure: real)
    ensures PointWithTilt(position, pressure, 0.0, 0.0) == PointWithPressure(position, DefaultShape(), pressure)
  {
  }

  // PointerEventArgs device types.
  const TYPE_MOUSE: string := "mouse"
  const TYPE_PEN: string := "pen"
  const TYPE_TOUCH: string := "touch"
  const TYPE_UNKNOWN: string := "unknown"

  // PointerEventArgs event types (the W3C Pointer Events names).
  const POINTER_OVER: string := "pointerover"
  const POINTER_ENTER: string := "pointerenter"
  const POINTER_DOWN: string := "pointerdown"
  const POINTER_MOVE: string := "pointermove"
  const POINTER_UP: string := "pointerup"
  const POINTER_CANCEL: string := "pointercancel"
  const POINTER_OUT: string := "pointerout"
  const POINTER_LEAVE: string := "pointerleave"
  const POINTER_SCROLL: string := "pointerscroll"
  const GOT_POINTER_CAPTURE: string := "gotpointercapture"
  const LOST_POINTER_CAPTURE: string := "lostpointercapture"

  /**
   * A PointerEventArgs. `id` is the hashed pointer id; `tapCount` is the
   * deprecated count PointerEvents maintains; `source` is the window the
   * event came from.
   */
  datatype PointerEventArgs = PointerEventArgs(
    eventType: string,
    point: Point,
    id: bv64,
    deviceId: int64,
    pointerIndex: int64,
    deviceType: string,
    canHover: bool,
    isPrimary: bool,
    button: uint64,
    buttons: uint64,
    modifiers: uint64,
    tapCount: uint64,
    timestamp: uint64,
    source: Window)

  /** An event whose id is the hash its constructor computes from its own fields. */
  predicate IdConsistent(h: Hashers, e: PointerEventArgs)
  {
    e.id == EventId(h, e.deviceId, e.pointerIndex, e.deviceType)
  }

  /**
   * The full constructor (src/PointerEvents.cpp:236-267): the `size_t`
   * device id is stored in an `int64_t` member, and the id is hashed from the
   * stored device id, pointer index and device type.
   */
  function MakeArgs(h: Hashers, eventType: string, point: Point, deviceId: uint64, pointerIndex: int64,
                    deviceType: string, canHover: bool, isPrimary: bool, button: uint64, buttons: uint64,
                    modifiers: uint64, tapCount: uint64, timestamp: uint64, source: Window): (r: PointerEventArgs)
    ensures IdConsistent(h, r)
    ensures r.deviceId == ToInt64(deviceId as int)
    ensures r.eventType == eventType && r.point == point && r.pointerIndex == pointerIndex
    ensures r.deviceType == deviceType && r.canHover == canHover && r.isPrimary == isPrimary
    ensures r.button == button && r.buttons == buttons && r.modifiers == modifiers
    ensures r.tapCount == tapCount && r.timestamp == timestamp && r.source == source
  {
    var stored := ToInt64(deviceId as int);
    PointerEventArgs(eventType, point, EventId(h, stored, pointerIndex, deviceType), stored, pointerIndex,
                     deviceType, canHover, isPrimary, button, buttons, modifiers, tapCount, timestamp, source)
  }

  /** PointerEventArgs(): a move of Point() from device 0, index -1, of unknown type. */
  function DefaultArgs(h: Hashers): (r: PointerEventArgs)
    ensures IdConsistent(h, r)
    ensures r.eventType == POINTER_MOVE && r.point == DefaultPoint()
    ensures r.deviceId == 0 && r.pointerIndex == -1 && r.deviceType == TYPE_UNKNOWN
    ensures !r.canHover && !r.isPrimary
    ensures r.button == 0 && r.buttons == 0 && r.modifiers == 0 && r.tapCount == 0 && r.timestamp == 0
    ensures r.source == NullWindow
  {
    MakeArgs(h, POINTER_MOVE, DefaultPoint(), 0, -1, TYPE_UNKNOWN, false, false, 0, 0, 0, 0, 0, NullWindow)
  }

  /**
   * PointerEventArgs(type, e) (src/PointerEvents.cpp:215-232): a copy of
   * `e` with a new type and no source, rebuilt through the full
   * constructor (the `int64_t` device id passes through its `size_t`
   * parameter).
   */
  function Retype(h: Hashers, eventType: string, e: PointerEventArgs): (r: PointerEventArgs)
    ensures IdConsistent(h, r)
    ensures r.eventType == eventType && r.source == NullWindow
  {
    MakeArgs(h, eventType, e.point, ToUint64(e.deviceId as int), e.pointerIndex, e.deviceType, e.canHover,
             e.isPrimary, e.button, e.buttons, e.modifiers, e.tapCount, e.timestamp, NullWindow)
  }

  /**
   * Retyping changes the event type and drops the source, and nothing else:
   * the device id survives its round trip through `size_t`, so the
   * recomputed id is the original one.
   */
  lemma RetypeKeepsEverythingElse(h: Hashers, eventType: string, e: PointerEventArgs)
    requires IdConsistent(h, e)
    ensures Retype(h, eventType, e) == e.(eventType := eventType, source := NullWindow)
    ensures Retype(h, eventType, e).id == e.id
  {
    Int64Uint64RoundTrip(e.deviceId);
  }

  /** `PointerEventKey`: `std::pair<int32_t, uint64_t>` of the id and the button. */
  type PointerEventKey = (int32, uint64)

  /** eventKey(): the `size_t` id is narrowed to `int32_t`. */
  function EventKey(e: PointerEventArgs): (r: PointerEventKey)
    ensures r.1 == e.button
    ensures (r.0 as int - e.id as int) % TWO_32 == 0
  {
    (ToInt32(e.id as int), e.button)
  }

  /**
   * Because of the narrowing, two pointers whose ids agree in their low 32
   * bits share a key when they use the same button, however different the
   * ids are.
   */
  lemma EventKeyNarrowing(a: PointerEventArgs, b: PointerEventArgs)
    requires a.button == b.button
    ensures EventKey(a) == EventKey(b) <==> a.id as int % TWO_32 == b.id as int % TWO_32
  {
    var ka := EventKey(a).0 as int;
    var kb := EventKey(b).0 as int;
    assert -0x8000_0000 <= ka < 0x8000_0000 && -0x8000_0000 <= kb < 0x8000_0000;
    assert (ka - a.id as int) % TWO_32 == 0 && (kb - b.id as int) % TWO_32 == 0;
    if a.id as int % TWO_32 == b.id as int % TWO_32 {
      assert (ka - kb) % TWO_32 == 0;
    }
  }

  // ---------------------------------------------------------------------------
  // Converters (src/PointerEvents.cpp:371-508).

  /** The type, buttons and tap count a touch kind maps to. */
  function TouchTypeButtonsTap(k: TouchKind): (string, uint64, uint64)
  {
    match k
    case TouchDoubleTap => (POINTER_MOVE, 0, 0)
    case TouchDown => (POINTER_DOWN, 1, 1)
    case TouchUp => (POINTER_UP, 0, 0)
    case TouchMove => (POINTER_MOVE, 1, 0)
    case TouchCancel => (POINTER_CANCEL, 0, 0)
  }

  /**
   * toPointerEventArgs(ofTouchEventArgs, source). `now` is the clock the
   * library reads. The button-1 bit is `1 << OF_MOUSE_BUTTON_1`.
   */
  function FromTouch(h: Hashers, e: TouchEvent, input: InputState, now: uint64, source: Window): (r: PointerEventArgs)
    ensures IdConsistent(h, r)
    ensures r.eventType == POINTER_DOWN <==> e.kind == TouchDown
    ensures r.eventType == POINTER_UP <==> e.kind == TouchUp
    ensures r.eventType == POINTER_CANCEL <==> e.kind == TouchCancel
    ensures r.eventType == POINTER_MOVE <==> (e.kind == TouchMove || e.kind == TouchDoubleTap)
    ensures r.buttons == (if e.kind in {TouchDown, TouchMove} then 1 else 0)
    ensures r.tapCount == (if e.kind == TouchDown then 1 else 0)
    ensures r.deviceType == TYPE_TOUCH && r.deviceId == 0 && r.pointerIndex as int == e.id as int
    ensures !r.canHover && !r.isPrimary && r.button == 0
    ensures r.modifiers as int == ModifiersFromKeys(input) as int
    ensures r.timestamp == now && r.source == source
    ensures r.point == PointWithPressure(Lift(e.pos),
                                         PointShape(e.width, e.height, e.majoraxis, e.minoraxis, e.angle),
                                         e.pressure)
  {
    var shape := PointShape(e.width, e.height, e.majoraxis, e.minoraxis, e.angle);
    var point := PointWithPressure(Lift(e.pos), shape, e.pressure);
    var modifiers := MaskValue(ModifiersFromKeys(input));
    var (eventType, buttons, tapCount) := TouchTypeButtonsTap(e.kind);
    MakeArgs(h, eventType, point, 0, e.id as int as int64, TYPE_TOUCH, false, false, 0, buttons, modifiers,
             tapCount, now, source)
  }

  /** The type, tap count and pressure a mouse kind maps to. */
  function MouseTypeTapPressure(k: MouseKind): (string, uint64, real)
  {
    match k
    case Pressed => (POINTER_DOWN, 1, 0.5)
    case Dragged => (POINTER_MOVE, 0, 0.5)
    case Moved => (POINTER_MOVE, 0, 0.0)
    case Released => (POINTER_UP, 0, 0.0)
    case Scrolled => (POINTER_SCROLL, 0, 0.0)
    case Entered => (POINTER_MOVE, 0, 0.0)
    case Exited => (POINTER_MOVE, 0, 0.0)
  }

  /** toPointerEventArgs(ofMouseEventArgs, source). */
  function FromMouse(h: Hashers, e: MouseEvent, input: InputState, now: uint64, source: Window): (r: PointerEventArgs)
    ensures IdConsistent(h, r)
    ensures r.eventType == POINTER_DOWN <==> e.kind == Pressed
    ensures r.eventType == POINTER_UP <==> e.kind == Released
    ensures r.eventType == POINTER_SCROLL <==> e.kind == Scrolled
    ensures r.eventType == POINTER_MOVE <==> e.kind in {Dragged, Moved, Entered, Exited}
    ensures r.tapCount == (if e.kind == Pressed then 1 else 0)
    ensures r.point.pressure == (if e.kind in {Pressed, Dragged} then 0.5 else 0.0)
    ensures r.deviceType == TYPE_MOUSE && r.deviceId == 0 && r.pointerIndex == 0
    ensures r.canHover && r.isPrimary
    ensures r.button as int == ToUint64(e.button as int) as int
    ensures r.buttons as int == ButtonsFromMouse(input) as int
    ensures r.modifiers as int == ModifiersFromKeys(input) as int
    ensures r.timestamp == now && r.source == source
    ensures r.point == PointWithPressure(Lift(e.pos), DefaultShape(), r.point.pressure)
  {
    var (eventType, tapCount, pressure) := MouseTypeTapPressure(e.kind);
    var point := PointWithPressure(Lift(e.pos), DefaultShape(), pressure);
    var modifiers := MaskValue(ModifiersFromKeys(input));
    var buttons := MaskValue(ButtonsFromMouse(input));
    MakeArgs(h, eventType, point, 0, 0, TYPE_MOUSE, true, true, ToUint64(e.button as int), buttons, modifiers,
             tapCount, now, source)
  }

  /** Every mouse event of a given button has the same tap-tracking key, whatever its kind and time. */
  lemma MouseEventsShareKey(h: Hashers, e1: MouseEvent, e2: MouseEvent, i1: InputState, i2: InputState,
                            t1: uint64, t2: uint64, s1: Window, s2: Window)
    requires e1.button == e2.button
    ensures EventKey(FromMouse(h, e1, i1, t1, s1)) == EventKey(FromMouse(h, e2, i2, t2, s2))
  {
  }

  /** Two touches share a tap-tracking key when they carry the same touch id. */
  lemma TouchesShareKey(h: Hashers, e1: TouchEvent, e2: TouchEvent, i1: InputState, i2: InputState,
                        t1: uint64, t2: uint64, s1: Window, s2: Window)
    requires e1.id == e2.id
    ensures EventKey(FromTouch(h, e1, i1, t1, s1)) == EventKey(FromTouch(h, e2, i2, t2, s2))
  {
  }
}
