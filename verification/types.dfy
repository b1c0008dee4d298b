/** Shared vocabulary of the MAX77693 regulator model: results, regulator
    identifiers and the C integer conversions the driver relies on. */
module Types {

  /** The only error the driver raises itself: -EINVAL. Failures of the
      register transport are not part of this model. */
  datatype Error = EInval

  /** A C return value: either a payload or a negative errno. */
  datatype Result<+T> = Ok(value: T) | Err(error: Error)

  /** A pointer that may be NULL. */
  datatype Option<+T> = None | Some(value: T)

  /** Regulator ids, in the order of the driver's `regulators[]` table. */
  const ESAFEOUT1: int := 0
  const ESAFEOUT2: int := 1
  const CHARGER: int := 2

  /** Number of entries of `reg_voltage_map` (one per regulator id). */
  const NUM_REGULATORS: int := 3

  predicate IsSafeout(rid: int) {
    rid == ESAFEOUT1 || rid == ESAFEOUT2
  }

  const TWO_32: int := 0x1_0000_0000
  const TWO_31: int := 0x8000_0000

  /** The values of a C `unsigned int`. */
  type U32 = x: int | 0 <= x < TWO_32

  /** The values of a C `int`. */
  predicate IsInt32(i: int) {
    -TWO_31 <= i < TWO_31
  }

  /** An exact integer result reduced to 32-bit unsigned arithmetic. */
  function Wrap32(x: int): (u: U32)
    ensures (x - u) % TWO_32 == 0
    ensures 0 <= x < TWO_32 ==> u == x
  {
    x % TWO_32
  }

  /** A 32-bit pattern read back as a two's-complement `int`. */
  function ToInt32(u: U32): (i: int)
    ensures IsInt32(i)
    ensures Wrap32(i) == u
    ensures u < TWO_31 ==> i == u
  {
    if u < TWO_31 then u else u - TWO_32
  }

  /** C's `x / 1000` on `int`, which truncates toward zero. */
  function Div1000(x: int): (q: int)
    ensures x >= 0 ==> 0 <= q * 1000 <= x < q * 1000 + 1000
    ensures x < 0 ==> q * 1000 - 1000 < x <= q * 1000 <= 0
  {
    if x >= 0 then x / 1000 else -((-x) / 1000)
  }
}
