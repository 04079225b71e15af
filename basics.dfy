/**
 * Shared vocabulary for every generation of the pointer library:
 * an Option type, the small float vectors the library stores (glm::vec3,
 * ofVec2f, ofVec3f) and the C++ fixed-width integer conversions that the
 * library's casts perform.
 *
 * No floating-point arithmetic happens anywhere in the library: pressures,
 * angles and positions are stored and copied only, so they are `real` here.
 */
module Basics {

  datatype Option<+T> = None | Some(value: T)

  /** A 2-D float vector (ofVec2f). */
  datatype Vec2 = Vec2(x: real, y: real)

  /** A 3-D float vector (glm::vec3 and ofVec3f). */
  datatype Vec3 = Vec3(x: real, y: real, z: real)

  const Origin2: Vec2 := Vec2(0.0, 0.0)
  const Origin3: Vec3 := Vec3(0.0, 0.0, 0.0)

  /** The implicit ofVec2f-to-ofVec3f conversion: z becomes 0. */
  function Lift(v: Vec2): (r: Vec3)
    ensures r.x == v.x && r.y == v.y && r.z == 0.0
  {
    Vec3(v.x, v.y, 0.0)
  }

  const TWO_32: int := 0x1_0000_0000
  const TWO_63: int := 0x8000_0000_0000_0000
  const TWO_64: int := 0x1_0000_0000_0000_0000

  newtype uint32 = x: int | 0 <= x < 0x1_0000_0000
  newtype uint64 = x: int | 0 <= x < 0x1_0000_0000_0000_0000
  newtype int32 = x: int | -0x8000_0000 <= x < 0x8000_0000
  newtype int64 = x: int | -0x8000_0000_0000_0000 <= x < 0x8000_0000_0000_0000

  /** Conversion of any integer to `unsigned int` (reduction modulo 2^32). */
  function ToUint32(x: int): (r: uint32)
    ensures 0 <= x < TWO_32 ==> r as int == x
    ensures (r as int - x) % TWO_32 == 0
  {
    (x % TWO_32) as uint32
  }

  /** Conversion of any integer to a 64-bit unsigned integer (reduction modulo 2^64). */
  /** A 64-bit mask read as the `unsigned long` holding the same bits. */
  function MaskValue(b: bv64): (r: uint64)
    ensures r as int == b as int
  {
    b as int as uint64
  }

  function ToUint64(x: int): (r: uint64)
    ensures 0 <= x < TWO_64 ==> r as int == x
    ensures (r as int - x) % TWO_64 == 0
  {
    (x % TWO_64) as uint64
  }

  /**
   * Conversion of any integer to a two's-complement 64-bit signed integer
   * (the modular conversion C++20 prescribes, and what every target of
   * this library does before C++20).
   */
  function ToInt64(x: int): (r: int64)
    ensures -TWO_63 <= x < TWO_63 ==> r as int == x
    ensures (r as int - x) % TWO_64 == 0
  {
    var u := x % TWO_64;
    if u < TWO_63 then u as int64 else (u - TWO_64) as int64
  }

  /** Conversion of any integer to a two's-complement 32-bit signed integer. */
  function ToInt32(x: int): (r: int32)
    ensures -0x8000_0000 <= x < 0x8000_0000 ==> r as int == x
    ensures (r as int - x) % TWO_32 == 0
  {
    var u := x % TWO_32;
    if u < 0x8000_0000 then u as int32 else (u - TWO_32) as int32
  }

  /** Unsigned-to-signed-and-back is the identity on 64 bits. */
  lemma Uint64Int64RoundTrip(u: uint64)
    ensures ToUint64(ToInt64(u as int) as int) == u
  {
  }

  /** Signed-to-unsigned-and-back is the identity on 64 bits. */
  lemma Int64Uint64RoundTrip(i: int64)
    ensures ToInt64(ToUint64(i as int) as int) == i
  {
  }

  /** C++'s `a + b` on two 64-bit unsigned integers. */
  function AddUint64(a: uint64, b: uint64): (r: uint64)
    ensures a as int + b as int < TWO_64 ==> r as int == a as int + b as int
    ensures a as int + b as int >= TWO_64 ==> r as int == a as int + b as int - TWO_64
  {
    ToUint64(a as int + b as int)
  }
}
