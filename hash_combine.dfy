/**
 * The `hash_combine` helper (include/ofx/PointerEvents.h:790-795) and the
 * pointer id the newest PointerEventArgs constructor derives from it.
 *
 * `std::size_t` is 64 bits wide, so every step is arithmetic modulo 2^64,
 * which `bv64` performs natively. `std::hash` is foreign code: the three
 * hashers the constructor uses are passed in as functions.
 */
module HashCombine {
  import opened Basics

  /** The term `0x9e3779b9 + (seed<<6) + (seed>>2)` added to the hashed value. */
  function Mix(seed: bv64): bv64
  {
    0x9e3779b9 + (seed << 6) + (seed >> 2)
  }

  /**
   * `seed ^= hasher(v) + 0x9e3779b9 + (seed<<6) + (seed>>2)`: the new seed
   * differs from the old one by exactly the XOR of the mixed hash.
   */
  function Combine(seed: bv64, hv: bv64): (r: bv64)
    ensures r ^ seed == hv + Mix(seed)
  {
    seed ^ (hv + Mix(seed))
  }

  /** Combining into a zero seed yields the hash offset by the golden-ratio constant. */
  lemma CombineZeroSeed(hv: bv64)
    ensures Combine(0, hv) == hv + 0x9e3779b9
  {
    assert Mix(0) == 0x9e3779b9;
  }

  /**
   * The two `std::hash` specialisations the constructor instantiates: the
   * device id and the pointer index are both `int64_t` members.
   */
  datatype Hashers = Hashers(hashInt64: int64 -> bv64, hashString: string -> bv64)

  /**
   * The id computed by the full PointerEventArgs constructor: `_id` starts
   * at 0 and the device id, the pointer index and the device type are
   * combined into it in that order.
   */
  function EventId(h: Hashers, deviceId: int64, pointerIndex: int64, deviceType: string): bv64
  {
    var id0: bv64 := 0;
    var id1 := Combine(id0, h.hashInt64(deviceId));
    var id2 := Combine(id1, h.hashInt64(pointerIndex));
    Combine(id2, h.hashString(deviceType))
  }
}
