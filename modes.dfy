/** The centred mode band the docstrings promise: an axis with m modes
    carries the integers k with -m/2 <= k <= (m-1)/2 (real division) in an
    output of m elements. Where each mode is stored is not said there; the
    model takes the backend's convention of storing them from the lowest at
    position 0 to the highest at position m - 1 (ModeAt). */
module Modes {

  /** The documented band, read literally as a real interval. */
  predicate InDocumentedBand(k: int, m: nat)
  {
    -(m as real) / 2.0 <= k as real && k as real <= ((m as int - 1) as real) / 2.0
  }

  /** The mode number stored at position i of an axis with m modes, under
      the backend's increasing storage order (an assumed convention). */
  function ModeAt(i: int, m: nat): int
  {
    i - m / 2
  }

  /** Membership in Interval, named so that its comprehension has a trigger. */
  predicate Between(lo: int, k: int, hi: int)
  {
    lo <= k < hi
  }

  /** The integers from lo up to, excluding, hi. The bare bounds let Dafny
      see the set is finite; Between gives the comprehension its trigger. */
  function Interval(lo: int, hi: int): set<int>
  {
    set k | lo <= k < hi && Between(lo, k, hi)
  }

  lemma {:induction false} IntervalSize(lo: int, hi: int)
    requires lo <= hi
    ensures |Interval(lo, hi)| == hi - lo
    decreases hi - lo
  {
    if lo < hi {
      IntervalSize(lo, hi - 1);
      assert Interval(lo, hi) == Interval(lo, hi - 1) + {hi - 1};
    } else {
      assert Interval(lo, hi) == {};
    }
  }

  /** The real-valued bounds hold exactly for the integers from -(m / 2) to
      (m - 1) / 2, with integer division rounding down. */
  lemma DocumentedBandIsIntegerRange(k: int, m: nat)
    ensures InDocumentedBand(k, m) <==> -(m / 2) <= k <= (m as int - 1) / 2
  {
    var q := m / 2;
    if m % 2 == 0 {
      assert m == 2 * q;
      assert (m as int - 1) / 2 == q - 1;
      assert -(m as real) / 2.0 == -(q as real);
      assert ((m as int - 1) as real) / 2.0 == (q as real) - 0.5;
    } else {
      assert m == 2 * q + 1;
      assert (m as int - 1) / 2 == q;
      assert -(m as real) / 2.0 == -(q as real) - 0.5;
      assert ((m as int - 1) as real) / 2.0 == q as real;
    }
  }

  /** The band holds exactly m integers, so an output of m elements has one
      slot per mode; position i holds mode i - m / 2, and every mode of the
      band is held at exactly one position. */
  lemma BandHasOneSlotPerMode(m: nat)
    ensures |Interval(-(m / 2), (m as int - 1) / 2 + 1)| == m
    ensures forall k :: k in Interval(-(m / 2), (m as int - 1) / 2 + 1) <==> InDocumentedBand(k, m)
    ensures forall i :: 0 <= i < m ==> InDocumentedBand(ModeAt(i, m), m)
    ensures forall k :: InDocumentedBand(k, m) ==> 0 <= k + m / 2 < m && ModeAt(k + m / 2, m) == k
  {
    var lo, hi := -(m / 2), (m as int - 1) / 2 + 1;
    assert hi - lo == m;
    IntervalSize(lo, hi);
    forall k ensures k in Interval(lo, hi) <==> InDocumentedBand(k, m) {
      DocumentedBandIsIntegerRange(k, m);
    }
  }

  /** Positions are stored in increasing mode order. */
  lemma ModesIncrease(i: int, j: int, m: nat)
    requires i < j
    ensures ModeAt(i, m) < ModeAt(j, m)
  {
  }

  /** With 4 modes positions 0..3 hold -2..1; with 5 modes 0..4 hold -2..2. */
  lemma ModeAtExamples()
    ensures seq(4, i => ModeAt(i, 4)) == [-2, -1, 0, 1]
    ensures seq(5, i => ModeAt(i, 5)) == [-2, -1, 0, 1, 2]
  {
  }
}
