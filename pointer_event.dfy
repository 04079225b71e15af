/**
 * The JSON generation of the library (src/PointerEvent.cpp): the 3-D
 * `PointShape` and `Point` value types, the `PointerEvent` record with its
 * short event-type names ("down", "up", ...), the two converters from raw
 * openFrameworks events, and the JSON encoder and decoder of all three
 * types.
 *
 * `long` and `unsigned long` are 64 bits wide (the LP64 targets the library
 * builds for). Getters return fields unchanged and are the datatype
 * destructors here.
 */
module PointerEvent {
  import opened Basics
  import opened OfEvents
  import opened Json

  datatype PointShape = PointShape(
    width: real,
    height: real,
    ellipseMajorAxis: real,
    ellipseMinorAxis: real,
    ellipseAngle: real)

  /** PointShape(): every dimension 0 (src/PointerEvent.cpp:32-39). */
  function DefaultShape(): (r: PointShape)
    ensures r.width == 0.0 && r.height == 0.0
    ensures r.ellipseMajorAxis == 0.0 && r.ellipseMinorAxis == 0.0 && r.ellipseAngle == 0.0
  {
    PointShape(0.0, 0.0, 0.0, 0.0, 0.0)
  }

  /** `Point` is an ofVec3f (its position) with the extra pointer data. */
  datatype Point = Point(
    position: Vec3,
    absolutePosition: Vec3,
    shape: PointShape,
    pressure: real,
    tangentialPressure: real,
    rotation: real,
    tiltX: real,
    tiltY: real)

  /** Point(): at the origin with the default shape and every scalar 0. */
  function DefaultPoint(): (r: Point)
    ensures r.position == Origin3 && r.absolutePosition == Origin3
    ensures r.shape == DefaultShape()
    ensures r.pressure == 0.0 && r.tangentialPressure == 0.0 && r.rotation == 0.0
    ensures r.tiltX == 0.0 && r.tiltY == 0.0
  {
    Point(Origin3, Origin3, DefaultShape(), 0.0, 0.0, 0.0, 0.0, 0.0)
  }

  /**
   * Point(position), Point(position, shape) and
   * Point(position, pressure, tiltX, tiltY): the absolute position is the
   * position, and whatever is not given is 0 or the default shape.
   */
  function PointAt(position: Vec3, shape: PointShape := DefaultShape(),
                   pressure: real := 0.0, tiltX: real := 0.0, tiltY: real := 0.0): (r: Point)
    ensures r.position == position && r.absolutePosition == position
    ensures r.shape == shape && r.pressure == pressure
    ensures r.tiltX == tiltX && r.tiltY == tiltY
    ensures r.tangentialPressure == 0.0 && r.rotation == 0.0
  {
    Point(position, position, shape, pressure, 0.0, 0.0, tiltX, tiltY)
  }

  /** Point() is the point at the origin with every default argument. */
  lemma PointAtOrigin()
    ensures PointAt(Origin3) == DefaultPoint()
  {
  }

  // PointerEvent::DeviceType values.
  const TYPE_MOUSE: string := "mouse"
  const TYPE_PEN: string := "pen"
  const TYPE_TOUCH: string := "touch"
  const TYPE_UNKNOWN: string := "unknown"

  // PointerEvent::EventType values.
  const POINTER_DOWN: string := "down"
  const POINTER_UP: string := "up"
  const POINTER_MOVE: string := "move"
  const POINTER_CANCEL: string := "cancel"
  const POINTER_SCROLL: string := "scroll"

  const EventTypes: set<string> := {POINTER_DOWN, POINTER_UP, POINTER_MOVE, POINTER_CANCEL, POINTER_SCROLL}
  const DeviceTypes: set<string> := {TYPE_MOUSE, TYPE_PEN, TYPE_TOUCH, TYPE_UNKNOWN}

  /** The five event types are five different strings, and the four device types four. */
  lemma TypeConstantsDistinct()
    ensures |EventTypes| == 5
    ensures |DeviceTypes| == 4
  {
    assert POINTER_DOWN != POINTER_UP && POINTER_DOWN != POINTER_MOVE;
    assert DeviceTypes == {TYPE_MOUSE} + {TYPE_PEN} + {TYPE_TOUCH} + {TYPE_UNKNOWN};
    assert EventTypes == {POINTER_DOWN} + {POINTER_UP} + {POINTER_MOVE} + {POINTER_CANCEL} + {POINTER_SCROLL};
  }

  datatype PointerEvent = PointerEvent(
    eventType: string,
    point: Point,
    deviceID: int64,
    pointerID: int64,
    deviceType: string,
    isPrimary: bool,
    button: uint64,
    buttons: uint64,
    modifiers: uint64,
    timestamp: uint64)

  /** PointerEvent(): a move of the default point from device and pointer -1. */
  function DefaultEvent(): (r: PointerEvent)
    ensures r.eventType == POINTER_MOVE && r.point == DefaultPoint()
    ensures r.deviceID == -1 && r.pointerID == -1
    ensures r.deviceType == TYPE_UNKNOWN && !r.isPrimary
    ensures r.button == 0 && r.buttons == 0 && r.modifiers == 0 && r.timestamp == 0
  {
    PointerEvent(POINTER_MOVE, DefaultPoint(), -1, -1, TYPE_UNKNOWN, false, 0, 0, 0, 0)
  }

  /** getID(): the pair (device id, pointer id). */
  function GetID(e: PointerEvent): (r: (int64, int64))
    ensures r.0 == e.deviceID && r.1 == e.pointerID
  {
    (e.deviceID, e.pointerID)
  }

  /** Two events have the same id exactly when their device and pointer ids agree. */
  lemma GetIDInjective(a: PointerEvent, b: PointerEvent)
    ensures GetID(a) == GetID(b) <==> (a.deviceID == b.deviceID && a.pointerID == b.pointerID)
  {
  }

  // ---------------------------------------------------------------------------
  // Converters from raw openFrameworks events.

  /** The event type of a touch: double taps become downs. */
  function TouchType(k: TouchKind): string
  {
    match k
    case TouchDown => POINTER_DOWN
    case TouchDoubleTap => POINTER_DOWN
    case TouchUp => POINTER_UP
    case TouchMove => POINTER_MOVE
    case TouchCancel => POINTER_CANCEL
  }

  /**
   * toPointerEvent(ofTouchEventArgs) (src/PointerEvent.cpp:408-456). `now`
   * is ofGetElapsedTimeMillis().
   */
  function FromTouch(evt: TouchEvent, input: InputState, now: uint64): (r: PointerEvent)
    ensures r.eventType == POINTER_DOWN <==> (evt.kind == TouchDown || evt.kind == TouchDoubleTap)
    ensures r.eventType == POINTER_UP <==> evt.kind == TouchUp
    ensures r.eventType == POINTER_MOVE <==> evt.kind == TouchMove
    ensures r.eventType == POINTER_CANCEL <==> evt.kind == TouchCancel
    ensures r.eventType in EventTypes && r.eventType != POINTER_SCROLL
    ensures r.deviceType == TYPE_TOUCH && !r.isPrimary
    ensures r.deviceID == 0 && r.pointerID as int == evt.id as int
    ensures r.button == 0 && r.buttons == 0
    ensures r.modifiers as int == ModifiersFromKeys(input) as int
    ensures r.timestamp == now
    ensures r.point.position == Lift(evt.pos) && r.point.absolutePosition == r.point.position
    ensures r.point.shape == PointShape(evt.width, evt.height, evt.majoraxis, evt.minoraxis, evt.angle)
    ensures r.point.pressure == evt.pressure
    ensures r.point.tangentialPressure == 0.0 && r.point.rotation == 0.0
    ensures r.point.tiltX == 0.0 && r.point.tiltY == 0.0
  {
    var shape := PointShape(evt.width, evt.height, evt.majoraxis, evt.minoraxis, evt.angle);
    var pos := Lift(evt.pos);
    var point := Point(pos, pos, shape, evt.pressure, 0.0, 0.0, 0.0, 0.0);
    var modifiers := MaskValue(ModifiersFromKeys(input));
    PointerEvent(TouchType(evt.kind), point, 0, evt.id as int as int64, TYPE_TOUCH, false,
                 0, 0, modifiers, now)
  }

  /** The event type and pressure of a mouse event; enter and exit keep the defaults. */
  function MouseTypeAndPressure(k: MouseKind): (string, real)
  {
    match k
    case Pressed => (POINTER_DOWN, 0.5)
    case Dragged => (POINTER_MOVE, 0.5)
    case Moved => (POINTER_MOVE, 0.0)
    case Released => (POINTER_UP, 0.0)
    case Scrolled => (POINTER_SCROLL, 0.0)
    case Entered => (POINTER_MOVE, 0.0)
    case Exited => (POINTER_MOVE, 0.0)
  }

  /**
   * toPointerEvent(ofMouseEventArgs) (src/PointerEvent.cpp:459-526). The
   * local tap count it computes is never used.
   */
  function FromMouse(evt: MouseEvent, input: InputState, now: uint64): (r: PointerEvent)
    ensures r.eventType == POINTER_DOWN <==> evt.kind == Pressed
    ensures r.eventType == POINTER_UP <==> evt.kind == Released
    ensures r.eventType == POINTER_SCROLL <==> evt.kind == Scrolled
    ensures r.eventType == POINTER_MOVE <==> evt.kind in {Dragged, Moved, Entered, Exited}
    ensures r.eventType in EventTypes && r.eventType != POINTER_CANCEL
    ensures r.point.pressure == (if evt.kind in {Pressed, Dragged} then 0.5 else 0.0)
    ensures r.deviceType == TYPE_MOUSE && r.isPrimary
    ensures r.deviceID == 0 && r.pointerID == 0
    ensures r.button as int == ToUint64(evt.button as int) as int
    ensures (r.button as int == evt.button as int) <==> evt.button >= 0
    ensures r.buttons as int == ButtonsFromMouse(input) as int
    ensures r.modifiers as int == ModifiersFromKeys(input) as int
    ensures r.timestamp == now
    ensures r.point.position == Lift(evt.pos) && r.point.absolutePosition == r.point.position
    ensures r.point.shape == DefaultShape()
    ensures r.point.tangentialPressure == 0.0 && r.point.rotation == 0.0
    ensures r.point.tiltX == 0.0 && r.point.tiltY == 0.0
  {
    var (eventType, pressure) := MouseTypeAndPressure(evt.kind);
    var pos := Lift(evt.pos);
    var point := Point(pos, pos, DefaultShape(), pressure, 0.0, 0.0, 0.0, 0.0);
    var modifiers := MaskValue(ModifiersFromKeys(input));
    var buttons := MaskValue(ButtonsFromMouse(input));
    PointerEvent(eventType, point, 0, 0, TYPE_MOUSE, true,
                 ToUint64(evt.button as int), buttons, modifiers, now)
  }

  // ---------------------------------------------------------------------------
  // JSON.

  /** PointShape::toJSON. */
  function ShapeToJson(s: PointShape): (r: Value)
    ensures r.Object? && r.members.Keys == {"width", "height", "ellipseMajorAxis", "ellipseMinorAxis", "ellipseAngle"}
    ensures forall k :: k in r.members ==> r.members[k].Real?
  {
    Object(map[
      "width" := Real(s.width),
      "height" := Real(s.height),
      "ellipseMajorAxis" := Real(s.ellipseMajorAxis),
      "ellipseMinorAxis" := Real(s.ellipseMinorAxis),
      "ellipseAngle" := Real(s.ellipseAngle)])
  }

  /** `json.get(key, 0).asFloat()`. */
  function FloatMember(v: Value, key: string): Option<real>
  {
    match Get(v, key, Int(0))
    case None => None
    case Some(m) => AsFloat(m)
  }

  /** PointShape::fromJSON. */
  function ShapeFromJson(v: Value): (r: Option<PointShape>)
    ensures !(v.Null? || v.Object?) ==> r.None?
    ensures v.Object? && (forall k :: k in v.members ==> v.members[k].Real?) ==> r.Some?
  {
    var w := FloatMember(v, "width");
    var h := FloatMember(v, "height");
    var major := FloatMember(v, "ellipseMajorAxis");
    var minor := FloatMember(v, "ellipseMinorAxis");
    var angle := FloatMember(v, "ellipseAngle");
    if w.Some? && h.Some? && major.Some? && minor.Some? && angle.Some? then
      Some(PointShape(w.value, h.value, major.value, minor.value, angle.value))
    else None
  }

  /** Decoding an encoded shape gives the shape back. */
  lemma ShapeRoundTrip(s: PointShape)
    ensures ShapeFromJson(ShapeToJson(s)) == Some(s)
  {
    var v := ShapeToJson(s);
    assert FloatMember(v, "width") == Some(s.width);
    assert FloatMember(v, "height") == Some(s.height);
    assert FloatMember(v, "ellipseMajorAxis") == Some(s.ellipseMajorAxis);
    assert FloatMember(v, "ellipseMinorAxis") == Some(s.ellipseMinorAxis);
    assert FloatMember(v, "ellipseAngle") == Some(s.ellipseAngle);
  }

  /** A shape object with no members, or a null, decodes to the all-zero default. */
  lemma ShapeMissingKeys()
    ensures ShapeFromJson(Object(map[])) == Some(DefaultShape())
    ensures ShapeFromJson(Null) == Some(DefaultShape())
  {
  }

  /** The x, y, z object jsoncpp builds for `json[key]["x"] = ...`. */
  function VecToJson(p: Vec3): (r: Value)
    ensures r.Object? && r.members.Keys == {"x", "y", "z"}
    ensures forall k :: k in r.members ==> r.members[k].Real?
  {
    Object(map["x" := Real(p.x), "y" := Real(p.y), "z" := Real(p.z)])
  }

  /** Reads x, y, z through `get(c, 0).asFloat()`. */
  function VecFromJson(v: Value): (r: Option<Vec3>)
    ensures !(v.Null? || v.Object?) ==> r.None?
    ensures v.Object? && (forall k :: k in v.members ==> v.members[k].Real?) ==> r.Some?
  {
    var x := FloatMember(v, "x");
    var y := FloatMember(v, "y");
    var z := FloatMember(v, "z");
    if x.Some? && y.Some? && z.Some? then Some(Vec3(x.value, y.value, z.value)) else None
  }

  lemma VecRoundTrip(p: Vec3)
    ensures VecFromJson(VecToJson(p)) == Some(p)
  {
    var v := VecToJson(p);
    assert FloatMember(v, "x") == Some(p.x);
    assert FloatMember(v, "y") == Some(p.y);
    assert FloatMember(v, "z") == Some(p.z);
  }

  /** Point::toJSON. */
  function PointToJson(p: Point): (r: Value)
    ensures r.Object?
    ensures forall k :: k in r.members ==> r.members[k].Real? || r.members[k].Object?
  {
    Object(map[
      "position" := VecToJson(p.position),
      "absolutePosition" := VecToJson(p.absolutePosition),
      "pointShape" := ShapeToJson(p.shape),
      "pressure" := Real(p.pressure),
      "tangentialPressure" := Real(p.tangentialPressure),
      "rotation" := Real(p.rotation),
      "tiltX" := Real(p.tiltX),
      "tiltY" := Real(p.tiltY)])
  }

  /**
   * The position read from `key` when `isMember(key)`, else `current`. A
   * member that is present is looked up with `operator[]`.
   */
  function OverrideVec(v: Value, key: string, current: Vec3): Option<Vec3>
  {
    match IsMember(v, key)
    case None => None
    case Some(false) => Some(current)
    case Some(true) =>
      match Member(v, key)
      case None => None
      case Some(m) => VecFromJson(m)
  }

  /** The scalar members and the shape of Point::fromJSON. */
  function PointWithPosition(v: Value, position: Vec3, absolutePosition: Vec3): Option<Point>
  {
    var shape := match Get(v, "pointShape", Null) case None => None case Some(s) => ShapeFromJson(s);
    var pressure := FloatMember(v, "pressure");
    var tangential := FloatMember(v, "tangentialPressure");
    var rotation := FloatMember(v, "rotation");
    var tiltX := FloatMember(v, "tiltX");
    var tiltY := FloatMember(v, "tiltY");
    if shape.Some? && pressure.Some? && tangential.Some? && rotation.Some? && tiltX.Some? && tiltY.Some? then
      Some(Point(position, absolutePosition, shape.value, pressure.value, tangential.value,
                 rotation.value, tiltX.value, tiltY.value))
    else None
  }

  /**
   * Point::fromJSON as written (src/PointerEvent.cpp:232-263): both the
   * "position" and the "absolutePosition" members are read into the
   * position, and the absolute position is left at the origin.
   */
  function PointFromJson(v: Value): (r: Option<Point>)
    ensures !(v.Null? || v.Object?) ==> r.None?
    ensures r.Some? ==> r.value.absolutePosition == Origin3
  {
    var p1 := OverrideVec(v, "position", Origin3);
    if p1.None? then None
    else
      var p2 := OverrideVec(v, "absolutePosition", p1.value);
      if p2.None? then None
      else PointWithPosition(v, p2.value, Origin3)
  }

  /** The shape and scalar members of an encoded point decode to the point's own, at any positions. */
  lemma PointScalarsRoundTrip(p: Point, position: Vec3, absolutePosition: Vec3)
    ensures PointWithPosition(PointToJson(p), position, absolutePosition) ==
            Some(p.(position := position, absolutePosition := absolutePosition))
  {
    var v := PointToJson(p);
    ShapeRoundTrip(p.shape);
    assert Get(v, "pointShape", Null) == Some(ShapeToJson(p.shape));
    assert FloatMember(v, "pressure") == Some(p.pressure);
    assert FloatMember(v, "tangentialPressure") == Some(p.tangentialPressure);
    assert FloatMember(v, "rotation") == Some(p.rotation);
    assert FloatMember(v, "tiltX") == Some(p.tiltX);
    assert FloatMember(v, "tiltY") == Some(p.tiltY);
  }

  /** Both position members of an encoded point are present and decode to the stored vectors. */
  lemma PointPositionsRoundTrip(p: Point, current: Vec3)
    ensures OverrideVec(PointToJson(p), "position", current) == Some(p.position)
    ensures OverrideVec(PointToJson(p), "absolutePosition", current) == Some(p.absolutePosition)
  {
    VecRoundTrip(p.position);
    VecRoundTrip(p.absolutePosition);
  }

  /**
   * Decoding an encoded point moves its absolute position into the position
   * and resets the absolute position to the origin; every other field
   * survives.
   */
  lemma PointRoundTrip(p: Point)
    ensures PointFromJson(PointToJson(p)) == Some(p.(position := p.absolutePosition, absolutePosition := Origin3))
  {
    PointPositionsRoundTrip(p, Origin3);
    PointPositionsRoundTrip(p, p.position);
    PointScalarsRoundTrip(p, p.absolutePosition, Origin3);
  }

  /** The round trip changes every point whose two positions differ. */
  lemma PointRoundTripLosesPosition(p: Point)
    requires p.position != p.absolutePosition || p.absolutePosition != Origin3
    ensures PointFromJson(PointToJson(p)) != Some(p)
  {
    PointRoundTrip(p);
  }

  /**
   * Point::fromJSON as evidently intended: the "absolutePosition" member is
   * read into the absolute position.
   */
  function PointFromJsonIntended(v: Value): (r: Option<Point>)
    ensures !(v.Null? || v.Object?) ==> r.None?
    ensures v.Object? && "absolutePosition" !in v.members && r.Some? ==> r.value.absolutePosition == Origin3
  {
    var p1 := OverrideVec(v, "position", Origin3);
    var p2 := OverrideVec(v, "absolutePosition", Origin3);
    if p1.Some? && p2.Some? then PointWithPosition(v, p1.value, p2.value) else None
  }

  /** With the intended decoder, every point survives the round trip. */
  lemma PointRoundTripIntended(p: Point)
    ensures PointFromJsonIntended(PointToJson(p)) == Some(p)
  {
    PointPositionsRoundTrip(p, Origin3);
    PointScalarsRoundTrip(p, p.position, p.absolutePosition);
  }

  /** A null point (the decoder's default for a missing "point") decodes to Point(). */
  lemma PointFromNull()
    ensures PointFromJson(Null) == Some(DefaultPoint())
  {
    assert ShapeFromJson(Null) == Some(DefaultShape());
  }

  /** PointerEvent::toJSON: every integer is stored through a `Json::Int64` cast. */
  function EventToJson(e: PointerEvent): Value
  {
    Object(map[
      "eventType" := Str(e.eventType),
      "point" := PointToJson(e.point),
      "deviceID" := Int(e.deviceID),
      "pointerID" := Int(e.pointerID),
      "deviceType" := Str(e.deviceType),
      "isPrimary" := Bool(e.isPrimary),
      "button" := Int(ToInt64(e.button as int)),
      "buttons" := Int(ToInt64(e.buttons as int)),
      "modifiers" := Int(ToInt64(e.modifiers as int)),
      "timestamp" := Int(ToInt64(e.timestamp as int))])
  }

  /** `json.get(key, 0).asLargestInt()`. */
  function LargestIntMember(v: Value, key: string): Option<int64>
  {
    match Get(v, key, Int(0))
    case None => None
    case Some(m) => AsLargestInt(m)
  }

  /** `json.get(key, default).asString()`. */
  function StringMember(v: Value, key: string, default: string, numText: Value -> string): Option<string>
  {
    match Get(v, key, Str(default))
    case None => None
    case Some(m) => AsString(m, numText)
  }

  /**
   * PointerEvent::fromJSON (src/PointerEvent.cpp:529-541). The signed
   * 64-bit integers read for button, buttons and modifiers are converted to
   * the constructor's `unsigned long` parameters. `numText` is jsoncpp's
   * decimal text of a number found where a string is read.
   */
  function EventFromJson(v: Value, numText: Value -> string): (r: Option<PointerEvent>)
    ensures !(v.Null? || v.Object?) ==> r.None?
    ensures r.Some? ==> r.value.point.absolutePosition == Origin3
  {
    var eventType := StringMember(v, "eventType", POINTER_MOVE, numText);
    var point := match Get(v, "point", Null) case None => None case Some(p) => PointFromJson(p);
    var deviceID := LargestIntMember(v, "deviceID");
    var pointerID := LargestIntMember(v, "pointerID");
    var deviceType := StringMember(v, "deviceType", TYPE_UNKNOWN, numText);
    var isPrimary := match Get(v, "isPrimary", Bool(false)) case None => None case Some(b) => AsBool(b);
    var button := LargestIntMember(v, "button");
    var buttons := LargestIntMember(v, "buttons");
    var modifiers := LargestIntMember(v, "modifiers");
    var timestamp := match Get(v, "timestamp", Int(0)) case None => None case Some(t) => AsLargestUInt(t);
    if eventType.Some? && point.Some? && deviceID.Some? && pointerID.Some? && deviceType.Some?
       && isPrimary.Some? && button.Some? && buttons.Some? && modifiers.Some? && timestamp.Some?
    then
      Some(PointerEvent(eventType.value, point.value, deviceID.value, pointerID.value, deviceType.value,
                        isPrimary.value, ToUint64(button.value as int), ToUint64(buttons.value as int),
                        ToUint64(modifiers.value as int), timestamp.value))
    else None
  }

  /**
   * Decoding an encoded event preserves every field except the point (which
   * goes through Point's lossy round trip), provided the timestamp fits in
   * a signed 64-bit integer.
   */
  lemma EventRoundTrip(e: PointerEvent, numText: Value -> string)
    requires e.timestamp as int < TWO_63
    ensures EventFromJson(EventToJson(e), numText) ==
            Some(e.(point := e.point.(position := e.point.absolutePosition, absolutePosition := Origin3)))
  {
    EventMembers(e, numText);
    PointRoundTrip(e.point);
    Uint64Int64RoundTrip(e.button);
    Uint64Int64RoundTrip(e.buttons);
    Uint64Int64RoundTrip(e.modifiers);
  }

  /** What each lookup of EventFromJson finds in an encoded event. */
  lemma EventMembers(e: PointerEvent, numText: Value -> string)
    ensures StringMember(EventToJson(e), "eventType", POINTER_MOVE, numText) == Some(e.eventType)
    ensures Get(EventToJson(e), "point", Null) == Some(PointToJson(e.point))
    ensures LargestIntMember(EventToJson(e), "deviceID") == Some(e.deviceID)
    ensures LargestIntMember(EventToJson(e), "pointerID") == Some(e.pointerID)
    ensures StringMember(EventToJson(e), "deviceType", TYPE_UNKNOWN, numText) == Some(e.deviceType)
    ensures Get(EventToJson(e), "isPrimary", Bool(false)) == Some(Bool(e.isPrimary))
    ensures LargestIntMember(EventToJson(e), "button") == Some(ToInt64(e.button as int))
    ensures LargestIntMember(EventToJson(e), "buttons") == Some(ToInt64(e.buttons as int))
    ensures LargestIntMember(EventToJson(e), "modifiers") == Some(ToInt64(e.modifiers as int))
    ensures Get(EventToJson(e), "timestamp", Int(0)) == Some(Int(ToInt64(e.timestamp as int)))
  {
  }

  /**
   * A timestamp of 2^63 or more is written as a negative Int64, which
   * `asLargestUInt` refuses: such an event cannot be decoded.
   */
  lemma EventRoundTripLargeTimestamp(e: PointerEvent, numText: Value -> string)
    requires e.timestamp as int >= TWO_63
    ensures EventFromJson(EventToJson(e), numText) == None
  {
    EventMembers(e, numText);
    assert ToInt64(e.timestamp as int) < 0;
  }

  /**
   * Missing members decode to their defaults: type "move", the default
   * point, ids 0 (not the -1 of PointerEvent()), type "unknown", not
   * primary, and every integer 0.
   */
  lemma EventMissingKeys(numText: Value -> string)
    ensures EventFromJson(Object(map[]), numText) ==
            Some(PointerEvent(POINTER_MOVE, DefaultPoint(), 0, 0, TYPE_UNKNOWN, false, 0, 0, 0, 0))
    ensures EventFromJson(Object(map[]), numText) != Some(DefaultEvent())
  {
    PointFromNull();
  }

  /** Every converted touch event with a timestamp below 2^63 survives the round trip as far as its point allows. */
  lemma ConvertedTouchRoundTrip(evt: TouchEvent, input: InputState, now: uint64, numText: Value -> string)
    requires now as int < TWO_63
    ensures EventFromJson(EventToJson(FromTouch(evt, input, now)), numText) == Some(FromTouch(evt, input, now).(point := FromTouch(evt, input, now).point.(absolutePosition := Origin3)))
  {
    EventRoundTrip(FromTouch(evt, input, now), numText);
  }
}
