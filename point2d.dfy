/**
 * The 2-D point of the oldest generation (ofx::Point,
 * libs/ofxPointer/src/Point.cpp): an ofVec2f position with a shape, a
 * pressure and two tilts. Its five constructors fill in what they are not
 * given with the default shape and zeros.
 */
module Point2D {
  import opened Basics
  import opened Shape2D

  datatype Point = Point(position: Vec2, shape: PointShape, pressure: real, tiltX: real, tiltY: real)

  /** Point(position, shape, pressure, tiltX, tiltY): every field from an argument. */
  function MakePoint(position: Vec2, shape: PointShape, pressure: real, tiltX: real, tiltY: real): (r: Point)
    ensures GetPosition(r) == position && GetShape(r) == shape
    ensures GetPressure(r) == pressure && GetTiltX(r) == tiltX && GetTiltY(r) == tiltY
  {
    Point(position, shape, pressure, tiltX, tiltY)
  }

  /** Point(): the origin with the default shape and no pressure or tilt. */
  function DefaultPoint(): (r: Point)
    ensures r == MakePoint(Origin2, DefaultShape(), 0.0, 0.0, 0.0)
  {
    Point(Vec2(0.0, 0.0), DefaultShape(), 0.0, 0.0, 0.0)
  }

  /** Point(position). */
  function PointAt(position: Vec2): (r: Point)
    ensures r == MakePoint(position, DefaultShape(), 0.0, 0.0, 0.0)
  {
    Point(position, DefaultShape(), 0.0, 0.0, 0.0)
  }

  /** Point(position, shape). */
  function PointWithShape(position: Vec2, shape: PointShape): (r: Point)
    ensures r == MakePoint(position, shape, 0.0, 0.0, 0.0)
  {
    Point(position, shape, 0.0, 0.0, 0.0)
  }

  /** Point(position, pressure, tiltX, tiltY). */
  function PointWithTilt(position: Vec2, pressure: real, tiltX: real, tiltY: real): (r: Point)
    ensures r == MakePoint(position, DefaultShape(), pressure, tiltX, tiltY)
  {
    Point(position, DefaultShape(), pressure, tiltX, tiltY)
  }

  function GetPosition(p: Point): Vec2
  {
    p.position
  }

  function GetShape(p: Point): PointShape
  {
    p.shape
  }

  function GetPressure(p: Point): real
  {
    p.pressure
  }

  function GetTiltX(p: Point): real
  {
    p.tiltX
  }

  function GetTiltY(p: Point): real
  {
    p.tiltY
  }

  /** The shorter constructors agree with each other where their arguments overlap. */
  lemma ConstructorsAgree(position: Vec2)
    ensures PointAt(Origin2) == DefaultPoint()
    ensures PointWithShape(position, DefaultShape()) == PointAt(position)
    ensures PointWithTilt(position, 0.0, 0.0, 0.0) == PointAt(position)
  {
  }

  /** A point is determined by what its five getters return. */
  lemma GettersDeterminePoint(p: Point, q: Point)
    ensures p == q <==>
            (GetPosition(p) == GetPosition(q) && GetShape(p) == GetShape(q) && GetPressure(p) == GetPressure(q)
             && GetTiltX(p) == GetTiltX(q) && GetTiltY(p) == GetTiltY(q))
  {
  }
}
