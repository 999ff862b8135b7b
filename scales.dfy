/**
 * The two scales the chart builds, written as plain functions with the
 * behaviour the chart relies on: a band scale without padding, and a linear
 * scale without clamping.
 */
module Scales {
  import opened Wrappers

  /** The position of the first occurrence of x in s, if any. */
  function IndexOf<T(==)>(s: seq<T>, x: T): (r: Option<nat>)
    ensures r.Some? ==> r.value < |s| && s[r.value] == x
    ensures r.Some? ==> forall j :: 0 <= j < r.value ==> s[j] != x
    ensures r.None? <==> x !in s
  {
    if s == [] then None
    else if s[0] == x then Some(0)
    else match IndexOf(s[1..], x)
      case None => None
      case Some(k) => Some(k + 1)
  }

  /**
   * A band scale over an ordered domain and the range [lo, hi], with no inner
   * or outer padding: the range is cut into one equal band per domain entry.
   */
  datatype BandScale<T(==)> = BandScale(domain: seq<T>, lo: real, hi: real)
  {
    /** The width of one band (with no padding, the step between bands). */
    function Bandwidth(): real {
      (hi - lo) / (if |domain| == 0 then 1 else |domain|) as real
    }

    /** The start of x's band; nothing for a value outside the domain. */
    function Apply(x: T): Option<real> {
      match IndexOf(domain, x)
      case Some(i) => Some(lo + (i as real) * Bandwidth())
      case None => None
    }
  }

  /** Entry i of a repetition-free domain starts i bands after lo. */
  lemma BandStart<T>(s: BandScale<T>, i: nat)
    requires i < |s.domain|
    requires forall a, b :: 0 <= a < b < |s.domain| ==> s.domain[a] != s.domain[b]
    ensures s.Apply(s.domain[i]).Some?
    ensures s.Apply(s.domain[i]).value == s.lo + (i as real) * s.Bandwidth()
  {
    var r := IndexOf(s.domain, s.domain[i]);
    assert r.Some?;
    assert r.value == i;
  }

  /** The bands tile the range: n bands of the band width span exactly [lo, hi]. */
  lemma BandsCoverRange<T>(s: BandScale<T>)
    requires |s.domain| > 0
    ensures s.lo + |s.domain| as real * s.Bandwidth() == s.hi
  {
  }

  /**
   * A linear scale from the domain [d0, d1] onto the range [r0, r1]: x is
   * normalised to t = (x - d0) / (d1 - d0) and t interpolates r0 to r1.
   */
  datatype LinearScale = LinearScale(d0: real, d1: real, r0: real, r1: real)
  {
    predicate Degenerate() {
      d0 == d1
    }

    function Apply(x: real): real
      requires !Degenerate()
    {
      var t := (x - d0) / (d1 - d0);
      r0 * (1.0 - t) + r1 * t
    }
  }

  /** The domain's ends go to the range's ends. */
  lemma LinearEnds(s: LinearScale)
    requires !s.Degenerate()
    ensures s.Apply(s.d0) == s.r0
    ensures s.Apply(s.d1) == s.r1
  {
  }

  /** From [0, d1] onto [0, r1] the scale is a plain proportion. */
  lemma LinearFromOrigin(d1: real, r1: real, x: real, y: real)
    requires d1 != 0.0
    requires y == LinearScale(0.0, d1, 0.0, r1).Apply(x)
    ensures y == x / d1 * r1
  {
  }

  /** An increasing domain onto a non-decreasing range gives a monotone map. */
  lemma LinearMonotone(s: LinearScale, x: real, y: real)
    requires s.d0 < s.d1 && s.r0 <= s.r1
    requires x <= y
    ensures s.Apply(x) <= s.Apply(y)
  {
    var tx, ty := (x - s.d0) / (s.d1 - s.d0), (y - s.d0) / (s.d1 - s.d0);
    assert tx <= ty;
    assert s.Apply(y) - s.Apply(x) == (s.r1 - s.r0) * (ty - tx);
  }
}
