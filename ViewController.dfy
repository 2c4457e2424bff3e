/** The view controller's event handlers, over abstract state: the player
    (playback state, current time, duration), the text of `testLabel` and the
    system volume slider. Sensor readings arrive already reduced to their two
    angles, and location updates carry no data the handler reads. */
module Controller {
  import opened Wrappers
  import opened VideoPlayer
  import opened Tilt
  import Volume
  import Seek

  /** `UIEvent.EventSubtype`, reduced to the case the controller tests for. */
  datatype MotionSubtype = MotionShake | OtherMotion

  /** The number a string of decimal digits denotes. */
  function DigitsValue(s: string): nat
  {
    if s == [] then 0
    else
      var d := s[|s| - 1] as int - '0' as int;
      DigitsValue(s[..|s| - 1]) * 10 + (if 0 <= d then d else 0)
  }

  /** Decimal digits of a natural number, as string interpolation prints it:
      a non-empty string of digits that denotes `n`. */
  function Decimal(n: nat): (s: string)
    ensures |s| >= 1
    ensures forall i :: 0 <= i < |s| ==> '0' <= s[i] <= '9'
    ensures DigitsValue(s) == n
    ensures s[0] == '0' ==> s == "0"
  {
    if n < 10 then [('0' as int + n) as char]
    else
      var prefix := Decimal(n / 10);
      var s := prefix + [('0' as int + n % 10) as char];
      assert s[..|s| - 1] == prefix;
      s
  }

  /** `"-\(Int(VIDEO_TIME_VARIATION)) SECONDS"` and its `+` counterpart;
      `Int(_)` truncates, which for the positive constant is rounding down. */
  function SeekLabel(forward: bool): string
  {
    (if forward then "+" else "-") + Decimal(Seek.VideoTimeVariation.Floor) + " SECONDS"
  }

  lemma SeekLabelValues()
    ensures SeekLabel(false) == "-5 SECONDS"
    ensures SeekLabel(true) == "+5 SECONDS"
  {
  }

  /** The volume command for the Z rotation's zone. */
  function VolumeCommand(zone: Zone): (a: Option<Volume.VolumeAction>)
    ensures a == None <==> zone == Neutral
    ensures a == Some(Volume.Decrease) <==> zone == Decrease
    ensures a == Some(Volume.Increase) <==> zone == Increase
  {
    match zone
    case Decrease => Some(Volume.Decrease)
    case Increase => Some(Volume.Increase)
    case Neutral => None
  }

  /** The seek command for the X rotation's zone: `Some(isForward)`. */
  function SeekCommand(zone: Zone): (forward: Option<bool>)
    ensures forward == None <==> zone == Neutral
    ensures forward == Some(false) <==> zone == Decrease
    ensures forward == Some(true) <==> zone == Increase
  {
    match zone
    case Decrease => Some(false)
    case Increase => Some(true)
    case Neutral => None
  }

  /** The player's time after `playback(isForward:)` from `current`. */
  function PositionAfterPlayback(current: real, forward: bool, duration: Option<real>): (p: real)
    ensures duration == None ==> p == current
    ensures duration != None && duration.value <= Seek.Destination(current, forward) ==> p == current
    ensures duration != None && Seek.Destination(current, forward) < duration.value ==>
              0.0 <= p <= Seek.Destination(current, forward) < p + 0.001 && p < duration.value
  {
    if duration != None && Seek.Destination(current, forward) < duration.value then
      Seek.SeekLandsBeforeDestination(current, forward, duration.value);
      Seek.Millis(Seek.Destination(current, forward)) as real / 1000.0
    else current
  }

  class ViewController {
    var testLabel: string
    var player: Player
    /** The slider found inside a fresh `MPVolumeView`, or null when there is
        none (then `changeVolume` returns without effect). */
    var volumeSlider: Volume.Slider?

    /** The current time is never negative. */
    ghost predicate Valid()
      reads this, player
    {
      0.0 <= player.position
    }

    /** `viewDidLoad`, once the video's item is known: a new player that is
        started at once. The label's first text is whatever the interface
        file gives it, passed in as `initialText`. */
    constructor (duration: Option<real>, slider: Volume.Slider?, initialText: string)
      ensures Valid()
      ensures fresh(player)
      ensures player.state == Playing && player.position == 0.0 && player.duration == duration
      ensures volumeSlider == slider && testLabel == initialText
    {
      testLabel := initialText;
      volumeSlider := slider;
      var p := new Player(duration);
      p.Play();
      player := p;
    }

    /** `locationManager(_:didUpdateLocations:)`: restart the video. */
    method LocationUpdated()
      requires Valid()
      modifies this`testLabel, player`position
      ensures Valid()
      ensures player.position == 0.0
      ensures testLabel == "RESTARTED"
    {
      player.Seek(0);
      testLabel := "RESTARTED";
    }

    /** `motionEnded(_:with:)`: a shake toggles playback and shows the new
        state; any other subtype changes nothing. */
    method MotionEnded(motion: MotionSubtype)
      requires Valid()
      modifies this`testLabel, player`state
      ensures Valid()
      ensures motion == MotionShake ==> player.state == Flipped(old(player.state))
      ensures motion == MotionShake ==> testLabel == Label(player.state)
      ensures motion == OtherMotion ==> player.state == old(player.state) && testLabel == old(testLabel)
    {
      if motion == MotionShake {
        testLabel := player.PlayOrPause();
      }
    }

    /** `playback(isForward:)`. */
    method Playback(forward: bool)
      requires Valid()
      modifies player`position
      ensures Valid()
      ensures player.position == PositionAfterPlayback(old(player.position), forward, player.duration)
    {
      var target := Seek.SeekTarget(player.position, forward, player.duration);
      if target != None {
        player.Seek(target.value);
      }
    }

    /** The device-motion callback for one sample: the Z rotation drives the
        volume and the X rotation the seek and the label, each classified on
        its own. */
    method DeviceMotionUpdate(rotationOnZ: real, rotationOnX: real)
      requires Valid()
      modifies this`testLabel, player`position, volumeSlider
      ensures Valid()
      ensures volumeSlider != null ==>
                volumeSlider.minimumValue == old(volumeSlider.minimumValue) &&
                volumeSlider.maximumValue == old(volumeSlider.maximumValue)
      ensures volumeSlider != null && VolumeCommand(Classify(rotationOnZ)) == None ==>
                volumeSlider.value == old(volumeSlider.value)
      ensures volumeSlider != null && VolumeCommand(Classify(rotationOnZ)) != None ==>
                volumeSlider.value == Volume.VolumeAfter(VolumeCommand(Classify(rotationOnZ)).value,
                  old(volumeSlider.value), volumeSlider.minimumValue, volumeSlider.maximumValue)
      ensures SeekCommand(Classify(rotationOnX)) == None ==>
                player.position == old(player.position) && testLabel == old(testLabel)
      ensures SeekCommand(Classify(rotationOnX)) != None ==>
                player.position == PositionAfterPlayback(old(player.position),
                  SeekCommand(Classify(rotationOnX)).value, player.duration) &&
                testLabel == SeekLabel(SeekCommand(Classify(rotationOnX)).value)
    {
      var volume := VolumeCommand(Classify(rotationOnZ));
      if volume != None && volumeSlider != null {
        volumeSlider.ChangeVolume(volume.value);
      }
      var seek := SeekCommand(Classify(rotationOnX));
      if seek != None {
        Playback(seek.value);
        testLabel := SeekLabel(seek.value);
      }
    }
  }
}
