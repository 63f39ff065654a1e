/** What the frame draws, reduced to the one number it computes: the opacity
    of a connecting line. The drawing calls themselves are host rendering. */
module Render {
  import opened Basics

  /** A line between two dots `dist` apart: drawn only when they are closer
      than `maxDistance`, fully opaque when they coincide and fading linearly
      to nothing at `maxDistance`. */
  function LineOpacity(dist: real, maxDistance: real): (o: Option<real>)
    requires 0.0 <= dist
    ensures o.Some? <==> dist < maxDistance
    ensures o.Some? ==> 0.0 < o.value <= 1.0
    ensures o.Some? ==> (o.value == 1.0 <==> dist == 0.0)
  {
    if dist < maxDistance then
      DivBelowOne(dist, maxDistance);
      DivMono(0.0, dist, maxDistance);
      if dist == 0.0 then Some(1.0 - dist / maxDistance)
      else
        DivPositive(dist, maxDistance);
        Some(1.0 - dist / maxDistance)
    else
      None
  }

  /** The line from a dot to the pointer is drawn at half the opacity of a
      dot-to-dot line of the same length. */
  function PointerLineOpacity(dist: real, maxDistance: real): (o: Option<real>)
    requires 0.0 <= dist
    ensures o.Some? <==> dist < maxDistance
    ensures o.Some? ==> 0.0 < o.value <= 0.5
    ensures o.Some? ==> o.value * 2.0 == LineOpacity(dist, maxDistance).value
  {
    match LineOpacity(dist, maxDistance)
    case None => None
    case Some(opacity) => Some(opacity * 0.5)
  }

  /** Within range, the opacity is the linear fade `1 - dist / maxDistance`. */
  lemma LineOpacityValue(dist: real, maxDistance: real)
    requires 0.0 <= dist < maxDistance
    ensures LineOpacity(dist, maxDistance) == Some(1.0 - dist / maxDistance)
  {
  }

  /** Closer dots are joined by a line at least as opaque. */
  lemma LineOpacityMonotone(d1: real, d2: real, maxDistance: real)
    requires 0.0 <= d1 <= d2 < maxDistance
    ensures LineOpacity(d2, maxDistance).value <= LineOpacity(d1, maxDistance).value
  {
    LineOpacityValue(d1, maxDistance);
    LineOpacityValue(d2, maxDistance);
    DivMono(d1, d2, maxDistance);
  }
}
