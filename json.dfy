/**
 * The part of jsoncpp's `Json::Value` that the JSON generation of the
 * library uses: the value kinds, member lookup (`get`, `isMember`,
 * `operator[]`) and the coercions `asFloat`, `asLargestInt`,
 * `asLargestUInt`, `asString` and `asBool`.
 *
 * The coercions are those of jsoncpp 1.x. jsoncpp throws when a lookup is
 * made on a value that is neither null nor an object, or when a coercion
 * cannot represent the value; every such call returns None here. The
 * decimal text `valueToString` gives a number is a parameter, `numText`.
 */
module Json {
  import opened Basics

  datatype Value =
    | Null
    | Bool(b: bool)
    | Int(i: int64)
    | UInt(u: uint64)
    | Real(d: real)
    | Str(s: string)
    | Object(members: map<string, Value>)

  /** `isMember(key)`: false on null, key membership on an object. */
  function IsMember(v: Value, key: string): (r: Option<bool>)
    ensures r.None? <==> !(v.Null? || v.Object?)
    ensures r == Some(true) <==> v.Object? && key in v.members
  {
    match v
    case Null => Some(false)
    case Object(m) => Some(key in m)
    case _ => None
  }

  /** Const `operator[](key)`: the member, or null when absent. */
  function Member(v: Value, key: string): (r: Option<Value>)
    ensures r.None? <==> !(v.Null? || v.Object?)
    ensures v.Object? && key in v.members ==> r == Some(v.members[key])
    ensures (v.Null? || (v.Object? && key !in v.members)) ==> r == Some(Null)
  {
    match v
    case Null => Some(Null)
    case Object(m) => Some(if key in m then m[key] else Null)
    case _ => None
  }

  /** `get(key, defaultValue)`: the member, or the default when absent. */
  function Get(v: Value, key: string, default: Value): (r: Option<Value>)
    ensures r.None? <==> !(v.Null? || v.Object?)
    ensures v.Object? && key in v.members ==> r == Some(v.members[key])
    ensures (v.Null? || (v.Object? && key !in v.members)) ==> r == Some(default)
  {
    match v
    case Null => Some(default)
    case Object(m) => Some(if key in m then m[key] else default)
    case _ => None
  }

  /** `asFloat()`: numbers and booleans convert, null is 0, a string throws. */
  function AsFloat(v: Value): (r: Option<real>)
    ensures v.Real? ==> r == Some(v.d)
    ensures v.Null? ==> r == Some(0.0)
    ensures r.None? <==> (v.Str? || v.Object?)
  {
    match v
    case Null => Some(0.0)
    case Bool(b) => Some(if b then 1.0 else 0.0)
    case Int(i) => Some(i as real)
    case UInt(u) => Some(u as real)
    case Real(d) => Some(d)
    case Str(_) => None
    case Object(_) => None
  }

  /** The integer part of a real, rounded toward zero as a C++ cast does. */
  function Truncate(d: real): (r: int)
    ensures d >= 0.0 ==> r as real <= d < r as real + 1.0
    ensures d < 0.0 ==> r as real - 1.0 < d <= r as real
  {
    if d >= 0.0 then d.Floor else -((-d).Floor)
  }

  /** jsoncpp's `InRange(d, min, max)`: the real lies between the two bounds. */
  function InRange(d: real, min: int, max: int): (r: bool)
    ensures r ==> min <= Truncate(d) <= max
  {
    min as real <= d <= max as real
  }

  /**
   * `asLargestInt()`: the value as a signed 64-bit integer; an unsigned
   * value of 2^63 or more and a real outside the int64 range throw.
   */
  function AsLargestInt(v: Value): (r: Option<int64>)
    ensures v.Int? ==> r == Some(v.i)
    ensures v.Null? ==> r == Some(0)
    ensures v.UInt? ==> (r.Some? <==> v.u as int < TWO_63)
    ensures r.Some? && v.UInt? ==> r.value as int == v.u as int
    ensures v.Real? ==> (r.Some? <==> -TWO_63 as real <= v.d <= (TWO_63 - 1) as real)
    ensures r.Some? && v.Real? ==> r.value as int == Truncate(v.d)
    ensures r.None? <==> (v.UInt? && v.u as int >= TWO_63) || (v.Real? && !InRange(v.d, -TWO_63, TWO_63 - 1)) || v.Str? || v.Object?
  {
    match v
    case Null => Some(0)
    case Bool(b) => Some(if b then 1 else 0)
    case Int(i) => Some(i)
    case UInt(u) => if u as int < TWO_63 then Some(u as int as int64) else None
    case Real(d) => if InRange(d, -TWO_63, TWO_63 - 1) then Some(Truncate(d) as int64) else None
    case Str(_) => None
    case Object(_) => None
  }

  /**
   * `asLargestUInt()`: the value as an unsigned 64-bit integer; a negative
   * integer and a real outside [0, 2^64 - 1] throw, so a negative real
   * such as -0.5 throws although it would truncate to 0.
   */
  function AsLargestUInt(v: Value): (r: Option<uint64>)
    ensures v.UInt? ==> r == Some(v.u)
    ensures v.Null? ==> r == Some(0)
    ensures v.Int? ==> (r.Some? <==> v.i >= 0)
    ensures r.Some? && v.Int? ==> r.value as int == v.i as int
    ensures v.Real? ==> (r.Some? <==> 0.0 <= v.d <= (TWO_64 - 1) as real)
    ensures r.Some? && v.Real? ==> r.value as int == Truncate(v.d)
    ensures r.None? <==> (v.Int? && v.i < 0) || (v.Real? && !InRange(v.d, 0, TWO_64 - 1)) || v.Str? || v.Object?
  {
    match v
    case Null => Some(0)
    case Bool(b) => Some(if b then 1 else 0)
    case Int(i) => if i >= 0 then Some(i as int as uint64) else None
    case UInt(u) => Some(u)
    case Real(d) => if InRange(d, 0, TWO_64 - 1) then Some(Truncate(d) as uint64) else None
    case Str(_) => None
    case Object(_) => None
  }

  /**
   * `asString()`: a string itself, null as the empty string, a boolean as
   * "true" or "false", a number as its decimal text; an object throws.
   */
  function AsString(v: Value, numText: Value -> string): (r: Option<string>)
    ensures v.Str? ==> r == Some(v.s)
    ensures v.Null? ==> r == Some("")
    ensures (v.Int? || v.UInt? || v.Real?) ==> r == Some(numText(v))
    ensures r.None? <==> v.Object?
  {
    match v
    case Null => Some("")
    case Str(s) => Some(s)
    case Bool(b) => Some(if b then "true" else "false")
    case Int(_) => Some(numText(v))
    case UInt(_) => Some(numText(v))
    case Real(_) => Some(numText(v))
    case Object(_) => None
  }

  /** `asBool()`: booleans, null (false) and numbers (non-zero); a string throws. */
  function AsBool(v: Value): (r: Option<bool>)
    ensures v.Bool? ==> r == Some(v.b)
    ensures v.Null? ==> r == Some(false)
    ensures r.None? <==> (v.Str? || v.Object?)
  {
    match v
    case Null => Some(false)
    case Bool(b) => Some(b)
    case Int(i) => Some(i != 0)
    case UInt(u) => Some(u != 0)
    case Real(d) => Some(d != 0.0)
    case Str(_) => None
    case Object(_) => None
  }
}
