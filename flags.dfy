/**
 * The pending-action word of the class driver (`class_driver_t.actions`,
 * a `uint32_t`) and the `action_t` flag values that live in it.
 */
module Flags {

  /** The 32-bit action word, updated with C's `&=`, `|=` and `~`. */
  type Mask = bv32

  // The values of `action_t`. ACTION_CCID_ON owns no bit at all.
  const CCID_ON: Mask := 0x00
  const OPEN_DEV: Mask := 0x01
  const GET_DEV_INFO: Mask := 0x02
  const GET_DEV_DESC: Mask := 0x04
  const GET_CONFIG_DESC: Mask := 0x08
  const GET_STR_DESC: Mask := 0x10
  const CLOSE_DEV: Mask := 0x20
  const EXIT: Mask := 0x40
  const RECONNECT: Mask := 0x80

  /** Every bit some `action_t` value owns. */
  const ALL_FLAGS: Mask := 0xFF

  /** `m & flag` is non-zero: the flag is pending in `m`. */
  predicate Has(m: Mask, flag: Mask)
  {
    m & flag != 0
  }

  /** Only bits that `action_t` defines are ever set in the word. */
  predicate WellFormed(m: Mask)
  {
    m & !ALL_FLAGS == 0
  }

  /**
   * `m2` is `m1` with `own` cleared and `next` set, every other bit as it was:
   * what `actions &= ~own; actions |= next;` does to the word.
   */
  predicate Advanced(m1: Mask, m2: Mask, own: Mask, next: Mask)
  {
    m2 & own == 0 && m2 & next == next && m2 & !(own | next) == m1 & !(own | next)
  }

  /** `m2` is `m1` with `flag` set, every other bit as it was: `m1 | flag`. */
  predicate Added(m1: Mask, m2: Mask, flag: Mask)
  {
    m2 & flag == flag && m2 & !flag == m1 & !flag
  }

  /**
   * Because ACTION_CCID_ON is zero, the guard `actions == ACTION_CCID_ON`
   * holds exactly when none of the eight flags is pending.
   */
  lemma CcidOnMeansNonePending(m: Mask)
    requires WellFormed(m)
    ensures m == CCID_ON <==>
      !Has(m, OPEN_DEV) && !Has(m, GET_DEV_INFO) && !Has(m, GET_DEV_DESC) &&
      !Has(m, GET_CONFIG_DESC) && !Has(m, GET_STR_DESC) && !Has(m, CLOSE_DEV) &&
      !Has(m, EXIT) && !Has(m, RECONNECT)
  {
  }

  /** `m | ACTION_CCID_ON` is `m`: arming CCID_ON changes nothing. */
  lemma ArmingCcidOnIsNoOp(m: Mask)
    ensures m | CCID_ON == m
  {
  }
}
