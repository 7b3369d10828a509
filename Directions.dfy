/**
 * The direction table both bindings keep: one entry per gpio, holding INPUT,
 * OUTPUT or UNSET (-1, never set up by this program).
 */
module Directions {
  import opened Hardware

  /** Every entry is UNSET, INPUT or OUTPUT. */
  ghost predicate WellFormed(d: seq<int>) {
    forall g :: 0 <= g < |d| ==> d[g] == UNSET || IsDirection(d[g])
  }

  /** No entry has been set up. */
  ghost predicate NoneConfigured(d: seq<int>) {
    forall g :: 0 <= g < |d| ==> d[g] == UNSET
  }

  /** A table with no entry set up. */
  function Cleared(n: nat): (d: seq<int>)
    ensures |d| == n && NoneConfigured(d)
  {
    seq(n, _ => UNSET)
  }

  /**
   * The gpios whose entry is not UNSET, in ascending order: the gpios a
   * cleanup loop over the table visits.
   */
  function Configured(d: seq<int>): (r: seq<int>)
    ensures |r| <= |d|
  {
    if d == [] then []
    else Configured(d[..|d| - 1]) + (if d[|d| - 1] != UNSET then [|d| - 1] else [])
  }

  /** A gpio is listed by Configured exactly when its entry is set up. */
  lemma {:induction false} ConfiguredMembers(d: seq<int>, g: int)
    ensures g in Configured(d) <==> 0 <= g < |d| && d[g] != UNSET
  {
    if d != [] {
      var n := |d| - 1;
      ConfiguredMembers(d[..n], g);
      ConfiguredBounded(d[..n]);
    }
  }

  /** Every gpio listed by Configured indexes the table. */
  lemma {:induction false} ConfiguredBounded(d: seq<int>)
    ensures forall k :: 0 <= k < |Configured(d)| ==> 0 <= Configured(d)[k] < |d|
  {
    if d != [] {
      ConfiguredBounded(d[..|d| - 1]);
    }
  }

  /** Configured lists each gpio once, in strictly ascending order. */
  lemma {:induction false} ConfiguredAscending(d: seq<int>)
    ensures forall j, k :: 0 <= j < k < |Configured(d)| ==> Configured(d)[j] < Configured(d)[k]
  {
    if d != [] {
      var n := |d| - 1;
      ConfiguredAscending(d[..n]);
      ConfiguredBounded(d[..n]);
    }
  }

  /** Configured is empty exactly when no entry is set up. */
  lemma ConfiguredEmpty(d: seq<int>)
    ensures Configured(d) == [] <==> NoneConfigured(d)
  {
    if Configured(d) == [] {
      forall g | 0 <= g < |d| ensures d[g] == UNSET {
        ConfiguredMembers(d, g);
      }
    } else {
      var g := Configured(d)[0];
      ConfiguredMembers(d, g);
    }
  }

  /** Extending the table by one entry extends Configured by that gpio when it is set up. */
  lemma ConfiguredSnoc(d: seq<int>, i: int)
    requires 0 <= i < |d|
    ensures Configured(d[..i + 1]) == Configured(d[..i]) + (if d[i] != UNSET then [i] else [])
  {
    assert d[..i + 1][..i] == d[..i];
  }
}
