/**
 * The 2-D point shape of the oldest generation (ofx::PointShape,
 * libs/ofxPointer/src/PointShape.cpp): a width and height and a touch
 * ellipse. Its ellipse-angle getter returns the height; the corrected
 * getter returns the angle.
 *
 * The five-argument constructor's header (libs/ofxPointer/includes/ofx/PointShape.h:48-52)
 * declares the parameters as (width, height, major axis, minor axis, angle),
 * each of the last three defaulting to 0, while its definition names them
 * (width, height, angle, major axis, minor axis). The definition is what
 * binds them, so a caller following the header stores its major axis as the
 * angle.
 */
module Shape2D {

  datatype PointShape = PointShape(width: real, height: real, ellipseAngle: real,
                                   ellipseMajorAxis: real, ellipseMinorAxis: real)

  /** PointShape(): no extent, and -1 for each ellipse value to mark it absent. */
  function DefaultShape(): (r: PointShape)
    ensures r.width == 0.0 && r.height == 0.0
    ensures r.ellipseAngle == -1.0 && r.ellipseMajorAxis == -1.0 && r.ellipseMinorAxis == -1.0
  {
    PointShape(0.0, 0.0, -1.0, -1.0, -1.0)
  }

  /**
   * PointShape(width, height, angle, major, minor) with the header's default
   * arguments, binding the parameters as the definition does.
   */
  function NewShape(width: real, height: real, ellipseAngle: real := 0.0,
                    ellipseMajorAxis: real := 0.0, ellipseMinorAxis: real := 0.0): (r: PointShape)
    ensures r.width == width && r.height == height && r.ellipseAngle == ellipseAngle
    ensures r.ellipseMajorAxis == ellipseMajorAxis && r.ellipseMinorAxis == ellipseMinorAxis
  {
    PointShape(width, height, ellipseAngle, ellipseMajorAxis, ellipseMinorAxis)
  }

  /**
   * A call written in the header's order (width, height, major, minor, angle)
   * stores the major axis as the angle, the minor axis as the major axis and
   * the angle as the minor axis; a two-argument call gives ellipse values 0,
   * where the default shape has -1.
   */
  lemma HeaderOrderCall(w: real, h: real, major: real, minor: real, angle: real)
    ensures var s := NewShape(w, h, major, minor, angle);
            s.ellipseAngle == major && s.ellipseMajorAxis == minor && s.ellipseMinorAxis == angle
    ensures NewShape(w, h).ellipseAngle == 0.0 != DefaultShape().ellipseAngle
  {
  }

  function GetWidth(s: PointShape): real
  {
    s.width
  }

  function GetHeight(s: PointShape): real
  {
    s.height
  }

  /** getEllipseAngle() as written: it returns the height. */
  function GetEllipseAngle(s: PointShape): real
  {
    s.height
  }

  /** getEllipseAngle() as evidently intended. */
  function GetEllipseAngleCorrected(s: PointShape): real
  {
    s.ellipseAngle
  }

  function GetEllipseMajorAxis(s: PointShape): real
  {
    s.ellipseMajorAxis
  }

  function GetEllipseMinorAxis(s: PointShape): real
  {
    s.ellipseMinorAxis
  }

  /**
   * Reading back a constructed shape: each getter returns the argument of
   * the same name, with the corrected angle getter.
   */
  lemma GettersReturnArguments(w: real, h: real, angle: real, major: real, minor: real)
    ensures var s := NewShape(w, h, angle, major, minor);
            && GetWidth(s) == w && GetHeight(s) == h && GetEllipseAngleCorrected(s) == angle
            && GetEllipseMajorAxis(s) == major && GetEllipseMinorAxis(s) == minor
  {
  }

  /** Two shapes are equal exactly when all five (corrected) getters agree. */
  lemma GettersDetermineShape(s: PointShape, t: PointShape)
    ensures s == t <==>
            (GetWidth(s) == GetWidth(t) && GetHeight(s) == GetHeight(t)
             && GetEllipseAngleCorrected(s) == GetEllipseAngleCorrected(t)
             && GetEllipseMajorAxis(s) == GetEllipseMajorAxis(t) && GetEllipseMinorAxis(s) == GetEllipseMinorAxis(t))
  {
  }

  /** As written, the angle getter reports the height: the default shape's angle reads as 0, not -1. */
  lemma EllipseAngleReadsHeight(w: real, h: real, angle: real, major: real, minor: real)
    ensures GetEllipseAngle(NewShape(w, h, angle, major, minor)) == h
    ensures GetEllipseAngle(DefaultShape()) == 0.0 != DefaultShape().ellipseAngle
    ensures angle != h ==> GetEllipseAngle(NewShape(w, h, angle, major, minor)) != angle
  {
  }
}
