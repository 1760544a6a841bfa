/**
 A linear scale with a two-stop domain [d0, d1] and range [r0, r1], as built by
 d3's scaleLinear().domain([d0, d1]).range([r0, r1]) without clamping.
 The map interpolates the range at the value's normalised position in the
 domain; the inverse does the same with domain and range exchanged. When the
 two stops coincide, d3 normalises every value to 0.5, so a degenerate domain
 sends every value to the middle of the range (and a degenerate range sends
 every pixel to the middle of the domain).
 */
module LinearScale {

  datatype Scale = Scale(d0: real, d1: real, r0: real, r1: real)

  /** scale(v): v's offset from d0 is to the domain's width as the result's offset from r0 is to
      the range's width; a degenerate domain gives the point halfway between r0 and r1. */
  function Apply(s: Scale, v: real): (r: real)
    ensures s.d0 != s.d1 ==> (r - s.r0) * (s.d1 - s.d0) == (v - s.d0) * (s.r1 - s.r0)
    ensures s.d0 == s.d1 ==> r - s.r0 == s.r1 - r
  {
    if s.d0 == s.d1 then (s.r0 + s.r1) / 2.0
    else s.r0 + (v - s.d0) * (s.r1 - s.r0) / (s.d1 - s.d0)
  }

  /** scale.invert(p): the same proportion with domain and range exchanged; a degenerate range
      gives the point halfway between d0 and d1. */
  function Invert(s: Scale, p: real): (r: real)
    ensures s.r0 != s.r1 ==> (r - s.d0) * (s.r1 - s.r0) == (p - s.r0) * (s.d1 - s.d0)
    ensures s.r0 == s.r1 ==> r - s.d0 == s.d1 - r
  {
    if s.r0 == s.r1 then (s.d0 + s.d1) / 2.0
    else s.d0 + (p - s.r0) * (s.d1 - s.d0) / (s.r1 - s.r0)
  }

  /** Both the domain and the range have two distinct stops. */
  predicate Invertible(s: Scale) {
    s.d0 != s.d1 && s.r0 != s.r1
  }

  /** The domain stops land on the range stops. */
  lemma ApplyEndpoints(s: Scale)
    requires s.d0 != s.d1
    ensures Apply(s, s.d0) == s.r0 && Apply(s, s.d1) == s.r1
  {
    var w := s.d1 - s.d0;
    assert (s.d1 - s.d0) * (s.r1 - s.r0) / w == s.r1 - s.r0;
  }

  /** With a degenerate domain the scale forgets its argument. */
  lemma DegenerateIsConstant(s: Scale, v: real, w: real)
    requires s.d0 == s.d1
    ensures Apply(s, v) == Apply(s, w) == (s.r0 + s.r1) / 2.0
  {
  }

  /** invert undoes the map. */
  lemma InvertApply(s: Scale, v: real)
    requires Invertible(s)
    ensures Invert(s, Apply(s, v)) == v
  {
    var dw, rw := s.d1 - s.d0, s.r1 - s.r0;
    var p := Apply(s, v);
    assert p - s.r0 == (v - s.d0) * rw / dw;
    assert (v - s.d0) * rw / dw * dw / rw == v - s.d0;
  }

  /** The map undoes invert. */
  lemma ApplyInvert(s: Scale, p: real)
    requires Invertible(s)
    ensures Apply(s, Invert(s, p)) == p
  {
    var dw, rw := s.d1 - s.d0, s.r1 - s.r0;
    var v := Invert(s, p);
    assert v - s.d0 == (p - s.r0) * dw / rw;
    assert (p - s.r0) * dw / rw * rw / dw == p - s.r0;
  }

  /** An ascending domain onto an ascending range gives a strictly increasing map. */
  lemma Increasing(s: Scale, v: real, w: real)
    requires s.d0 < s.d1 && s.r0 < s.r1 && v < w
    ensures Apply(s, v) < Apply(s, w)
  {
    var k := (s.r1 - s.r0) / (s.d1 - s.d0);
    assert k > 0.0;
    assert Apply(s, w) - Apply(s, v) == (w - v) * k;
  }

  /** An ascending domain onto a descending range gives a strictly decreasing map. */
  lemma Decreasing(s: Scale, v: real, w: real)
    requires s.d0 < s.d1 && s.r1 < s.r0 && v < w
    ensures Apply(s, v) > Apply(s, w)
  {
    var k := (s.r0 - s.r1) / (s.d1 - s.d0);
    assert k > 0.0;
    assert Apply(s, v) - Apply(s, w) == (w - v) * k;
  }
}
