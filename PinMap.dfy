/**
 * Board-pin to BCM-gpio tables. Index p is the physical pin of the 26-pin
 * header (index 0 is unused); -1 marks a pin that is not a gpio (power,
 * ground). Revision-2 boards rewired pins 3, 5 and 13.
 */
module PinMap {
  import opened Hardware

  /** Number of entries of a pin table: pins 0..26. */
  const NUM_PINS: int := 27

  const PIN_TO_GPIO_REV1: seq<int> :=
    [-1, -1, -1, 0, -1, 1, -1, 4, 14, -1, 15, 17, 18, 21, -1, 22, 23, -1, 24, 10, -1, 9, 25, 11, 8, -1, 7]

  const PIN_TO_GPIO_REV2: seq<int> :=
    [-1, -1, -1, 2, -1, 3, -1, 4, 14, -1, 15, 17, 18, 27, -1, 22, 23, -1, 24, 10, -1, 9, 25, 11, 8, -1, 7]

  /** One of the two tables a binding can select. */
  predicate IsPinTable(t: seq<int>) {
    t == PIN_TO_GPIO_REV1 || t == PIN_TO_GPIO_REV2
  }

  /** The table for a detected board revision: 1 selects revision 1, anything else revision 2. */
  function TableFor(revision: int): (t: seq<int>)
    ensures IsPinTable(t)
    ensures t == PIN_TO_GPIO_REV1 <==> revision == 1
  {
    if revision == 1 then PIN_TO_GPIO_REV1 else PIN_TO_GPIO_REV2
  }

  /**
   * Every pin of the table is either not a gpio or names an entry of a
   * 54-entry direction table.
   */
  ghost predicate MapsIntoDirectionTable(t: seq<int>) {
    |t| == NUM_PINS &&
    forall p :: 0 <= p < |t| ==> t[p] == UNSET || 0 <= t[p] < NUM_GPIO
  }

  /** Both tables only ever produce indices of the direction table. */
  lemma TablesMapIntoDirectionTable(t: seq<int>)
    requires IsPinTable(t)
    ensures MapsIntoDirectionTable(t)
  {
    forall p | 0 <= p < |t|
      ensures t[p] == UNSET || 0 <= t[p] < NUM_GPIO
    {
      PinEntryInRange(t, p);
    }
  }

  lemma PinEntryInRange(t: seq<int>, p: int)
    requires IsPinTable(t) && 0 <= p < NUM_PINS
    ensures t[p] == UNSET || 0 <= t[p] < NUM_GPIO
  {
    assert |t| == NUM_PINS;
  }

  /** The two revisions disagree exactly at pins 3, 5 and 13. */
  lemma TablesDifferOnlyAtRewiredPins(p: int)
    requires 0 <= p < NUM_PINS
    ensures PIN_TO_GPIO_REV1[p] != PIN_TO_GPIO_REV2[p] <==> p == 3 || p == 5 || p == 13
  {
  }

  /** No two board pins share a gpio, so setting up one pin never touches another pin's entry. */
  lemma TableInjective(t: seq<int>, p: int, q: int)
    requires IsPinTable(t)
    requires 0 <= p < NUM_PINS && 0 <= q < NUM_PINS && p != q
    requires t[p] != UNSET
    ensures t[p] != t[q]
  {
  }
}
