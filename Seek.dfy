/** The seek rule of `playback(isForward:)`: move five seconds from the
    current time, never before the start, and only while the destination lies
    before the end of the item. */
module Seek {
  import opened Wrappers

  /** `VIDEO_TIME_VARIATION`, in seconds. */
  const VideoTimeVariation: real := 5.0

  /** The destination in seconds: five seconds on or back, raised to zero when
      it would be negative. */
  function Destination(current: real, forward: bool): (d: real)
    ensures 0.0 <= d
    ensures forward ==> d == if current + 5.0 < 0.0 then 0.0 else current + 5.0
    ensures !forward ==> d == if current - 5.0 < 0.0 then 0.0 else current - 5.0
  {
    var d := if forward then current + VideoTimeVariation else current - VideoTimeVariation;
    if d < 0.0 then 0.0 else d
  }

  /** `Int64(destination * 1000)`: whole milliseconds, truncated toward zero,
      which for a non-negative destination is rounding down. */
  function Millis(d: real): (m: int)
    requires 0.0 <= d
    ensures 0 <= m
    ensures m as real <= d * 1000.0 < m as real + 1.0
  {
    (d * 1000.0).Floor
  }

  /** The millisecond time `playback(isForward:)` seeks to, or `None` when it
      does not seek: the duration is missing or the destination is not before
      it. The local `destinationTime` is reassigned as in `playback(isForward:)`. */
  method SeekTarget(current: real, forward: bool, duration: Option<real>) returns (target: Option<int>)
    ensures target == None <==> duration == None || duration.value <= Destination(current, forward)
    ensures target != None ==> target.value == Millis(Destination(current, forward))
    ensures target != None ==> 0 <= target.value
    ensures target != None ==> target.value as real / 1000.0 < duration.value
  {
    if duration == None {
      return None;
    }
    var destinationTime := if forward then current + VideoTimeVariation else current - VideoTimeVariation;
    if destinationTime < 0.0 {
      destinationTime := 0.0;
    }
    if destinationTime < duration.value {
      var m := Millis(destinationTime);
      assert m as real / 1000.0 <= destinationTime;
      return Some(m);
    }
    return None;
  }

  /** A seek lands within one millisecond at or before the destination, and the
      destination lies before the end: there is no clamping to the duration,
      an out-of-range destination is simply not sought. */
  lemma SeekLandsBeforeDestination(current: real, forward: bool, duration: real)
    requires Destination(current, forward) < duration
    ensures var p := Millis(Destination(current, forward)) as real / 1000.0;
            0.0 <= p <= Destination(current, forward) < p + 0.001 && p < duration
  {
  }
}
