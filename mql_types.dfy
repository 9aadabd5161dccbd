/**
 * The fixed-width integer types of the strategy records, as ranges of `int`.
 * Nothing in the modelled code does arithmetic on them beyond comparison, so
 * no wrap-around has to be written out; the ranges keep every stored value
 * within what the field can hold.
 */
module MqlTypes {

  /** `unsigned short` */
  type uint16 = x: int | 0 <= x < 0x1_0000

  /** `unsigned int` */
  type uint32 = x: int | 0 <= x < 0x1_0000_0000

  /** `int` */
  type int32 = x: int | -0x8000_0000 <= x < 0x8000_0000

  /** `long`, and `datetime` (seconds, stored in 8 bytes) */
  type int64 = x: int | -0x8000_0000_0000_0000 <= x < 0x8000_0000_0000_0000

  /** `unsigned long` */
  type uint64 = x: int | 0 <= x < 0x1_0000_0000_0000_0000

  /** The largest value `rand()` returns. */
  const RAND_MAX: int := 32767
}
