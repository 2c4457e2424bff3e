/** The tilt classifier of the motion-update callback: an angle in radians,
    already shifted by pi, is sorted into the decrease band, the increase band
    or neither. The same classifier is applied to the Z rotation (volume) and
    to the X rotation (seeking). */
module Tilt {
  /** `DECREASE_THRESHOLD = 0.50...3.14`, a closed range. */
  const DecreaseLow: real := 0.50
  const DecreaseHigh: real := 3.14
  /** `INCREASE_THRESHOLD = 3.14...5.78`, a closed range. */
  const IncreaseLow: real := 3.14
  const IncreaseHigh: real := 5.78

  datatype Zone = Decrease | Increase | Neutral

  /** `ClosedRange.contains`. */
  predicate InRange(lo: real, hi: real, x: real)
  {
    lo <= x <= hi
  }

  /** The decrease band is tested first and the increase band only when it
      fails, so the ranges' shared endpoint belongs to the decrease zone and the
      three zones partition the line. */
  function Classify(angle: real): (z: Zone)
    ensures z == Decrease <==> 0.50 <= angle <= 3.14
    ensures z == Increase <==> 3.14 < angle <= 5.78
    ensures z == Neutral <==> angle < 0.50 || 5.78 < angle
  {
    if InRange(DecreaseLow, DecreaseHigh, angle) then Decrease
    else if InRange(IncreaseLow, IncreaseHigh, angle) then Increase
    else Neutral
  }

  /** Every decrease angle lies below every increase angle. */
  lemma ZonesOrdered(a: real, b: real)
    requires Classify(a) == Decrease && Classify(b) == Increase
    ensures a < b
  {
  }

  /** One sample carries two angles that are classified each on its own: any
      combination of a volume zone and a seek zone occurs for some pair of
      angles in the [0, 2*pi] range that `atan2(...) + pi` yields, both on the
      side where `gravity.y` is negative, as one sample's two angles are. */
  lemma ZonesIndependent(volume: Zone, seek: Zone)
    ensures exists z: real, x: real :: 0.0 <= z <= 6.28 && 0.0 <= x <= 6.28 &&
                                       (z < 1.57 || 4.72 < z) && (x < 1.57 || 4.72 < x) &&
                                       Classify(z) == volume && Classify(x) == seek
  {
    var z := Witness(volume);
    var x := Witness(seek);
    assert Classify(z) == volume && Classify(x) == seek;
  }

  /** An angle in [0, 2*pi) that falls into the given zone. Both angles of a
      sample divide by the same `gravity.y`, so they lie on the same side of
      the vertical; every witness lies outside (pi/2, 3*pi/2), the side where
      `gravity.y` is negative, so any two of them can come from one sample. */
  function Witness(zone: Zone): (a: real)
    ensures 0.0 <= a < 6.28
    ensures a < 1.57 || 4.72 < a
    ensures Classify(a) == zone
  {
    match zone
    case Decrease => 1.0
    case Increase => 5.0
    case Neutral => 0.2
  }
}
