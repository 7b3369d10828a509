/**
 * Constants shared by both bindings. They come from the low-level GPIO layer
 * (c_gpio.h and common.h), which is not part of this model; the values are the
 * ones that layer uses. The proofs rely only on the constants within one
 * group being distinct, and on the -1 sentinels (UNSET here, NO_INITIAL in the
 * Lua binding) differing from INPUT/OUTPUT and from LOW/HIGH.
 */
module Hardware {

  // Directions, as stored in the direction tables and passed to setup_gpio.
  const INPUT: int := 1
  const OUTPUT: int := 0

  // Output levels.
  const HIGH: int := 1
  const LOW: int := 0

  // Pull-up/pull-down settings understood by setup_gpio.
  const PUD_OFF: int := 0
  const PUD_DOWN: int := 1
  const PUD_UP: int := 2

  // Pin numbering modes.
  const MODE_UNKNOWN: int := -1
  const BOARD: int := 10
  const BCM: int := 11

  /** Number of gpio lines, i.e. entries of a direction table. */
  const NUM_GPIO: int := 54

  /** Direction-table entry of a gpio that this program has not set up. */
  const UNSET: int := -1

  /** Result of the memory-mapping `setup()` call made when a binding is loaded. */
  datatype SetupResult = SetupOk | SetupDevmemFail | SetupMallocFail | SetupMmapFail

  predicate IsMode(m: int) {
    m == BOARD || m == BCM
  }

  predicate IsDirection(d: int) {
    d == INPUT || d == OUTPUT
  }

  predicate IsPull(p: int) {
    p == PUD_OFF || p == PUD_DOWN || p == PUD_UP
  }
}
