/**
 * The fixed-width Java integers and the few java.lang operations the
 * session code relies on, written out over Dafny's unbounded integers.
 */
module JavaLang {

  const INT32_MIN: int := -0x8000_0000
  const INT32_MAX: int := 0x7fff_ffff
  const INT64_MIN: int := -0x8000_0000_0000_0000
  const INT64_MAX: int := 0x7fff_ffff_ffff_ffff

  /** A Java `int`. */
  type Int32 = x: int | -0x8000_0000 <= x <= 0x7fff_ffff

  /** A Java `long`. */
  type Int64 = x: int | -0x8000_0000_0000_0000 <= x <= 0x7fff_ffff_ffff_ffff

  /** The exceptions the modelled code can raise. */
  datatype JavaException =
    | NullPointerException
    | ClassCastException
    | IllegalArgumentException(message: string)
    | DocumentDoesNotExistException

  /**
   * The narrowing conversion `(int) x`: the value of type `int` that agrees
   * with `x` modulo 2^32.
   */
  function ToInt32(x: int): (r: Int32)
    ensures INT32_MIN <= x <= INT32_MAX ==> r == x
    ensures (x - r) % 0x1_0000_0000 == 0
  {
    var m := x % 0x1_0000_0000;
    if m <= INT32_MAX then m else m - 0x1_0000_0000
  }

  /**
   * `long` arithmetic wraps around: the value of type `long` that agrees
   * with the exact result `x` modulo 2^64.
   */
  function ToInt64(x: int): (r: Int64)
    ensures INT64_MIN <= x <= INT64_MAX ==> r == x
    ensures (x - r) % 0x1_0000_0000_0000_0000 == 0
  {
    var m := x % 0x1_0000_0000_0000_0000;
    if m <= INT64_MAX then m else m - 0x1_0000_0000_0000_0000
  }

  /** `ms / 1000L`: Java's long division, which truncates toward zero. */
  function MillisToSeconds(ms: Int64): (r: Int64)
    ensures ms >= 0 ==> 0 <= r && r * 1000 <= ms < r * 1000 + 1000
    ensures ms < 0 ==> r <= 0 && r * 1000 - 1000 < ms <= r * 1000
  {
    var magnitude: int := if ms >= 0 then ms else -(ms as int);
    if ms >= 0 then magnitude / 1000 else -(magnitude / 1000)
  }

  /** `s.startsWith(prefix)`. */
  predicate StartsWith(s: string, prefix: string) {
    |prefix| <= |s| && s[..|prefix|] == prefix
  }

  lemma StartsWithConcat(prefix: string, rest: string)
    ensures StartsWith(prefix + rest, prefix)
  {
    assert (prefix + rest)[..|prefix|] == prefix;
  }
}
