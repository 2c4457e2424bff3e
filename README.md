# Overplay tilt-and-shake video controls, modelled in Dafny

The app plays one remote video on a single screen and drives it from sensors:
tilting the device around its Z axis nudges the system volume, tilting it
around its X axis seeks five seconds back or forward, shaking it toggles
play/pause, and every location update restarts the video. All of this lives
in `ViewController.swift`. This project models the decision logic of that
file over abstract state and proves what each piece promises:

- `VideoPlayer` (Player.dfy): `VideoState` and `CustomAVPlayer` as a class whose
  `state` field `Play`, `Pause` and `PlayOrPause` update; the label
  `PlayOrPause` returns is the upper-cased raw value of the new state
  (`String.uppercased()` is modelled for ASCII). The class also holds the two
  pieces of AVPlayer state the controller uses: the current time in seconds
  and the item's optional duration.
- `Tilt` (Tilt.dfy): the classifier of a shifted rotation angle against the
  closed ranges `0.50...3.14` (decrease) and `3.14...5.78` (increase). The
  decrease range is tested first, so 3.14 is a decrease.
- `Volume` (Volume.dfy): `canChange` and `changeVolume` of the `MPVolumeView`
  extension, as a pure function and as a method on a `Slider` class.
- `Seek` (Seek.dfy): the rule of `playback(isForward:)`. It computes the
  destination, raises it to zero when negative, seeks only when it lies
  strictly before the duration, and truncates the target to whole
  milliseconds.
- `Controller` (ViewController.dfy): the handlers for location updates,
  shake events and device-motion samples, over a `ViewController` class that
  holds the player, the label text and the volume slider. The class keeps the
  invariant that the current time is never negative.

Three behaviours of the code are easy to misread, and the model keeps them
as written. A destination at or past the end is not clamped to the duration:
no seek happens (lines 94-95). The bands are closed ranges, so their ends
belong to them (lines 22-23). The volume guard tests only equality with the
bound (lines 131-132). A value off the 0.05 grid therefore steps past the
minimum or maximum, and only the slider's own clamping (not modelled) keeps
it in range.

## Model

| member | source | states |
|---|---|---|
| `VideoPlayer.Flipped` | Overplay-UIKit/ViewController.swift:114-118 | the new state always differs from the old one |
| `VideoPlayer.UpperCased` | Overplay-UIKit/ViewController.swift:119 | upper-casing keeps the length and upper-cases every character in place |
| `VideoPlayer.LabelValues` | Overplay-UIKit/ViewController.swift:13 | the labels of `playing` and `paused` are exactly "PLAYING" and "PAUSED" |
| `VideoPlayer.LabelDeterminesState` | Overplay-UIKit/ViewController.swift:114-120 | equal labels come only from equal states, so the label identifies the state |
| `VideoPlayer.ToggledTimesParity` | Overplay-UIKit/ViewController.swift:57-59 | after n shakes the state is unchanged for even n and flipped for odd n |
| `VideoPlayer.Player.constructor` | Overplay-UIKit/ViewController.swift:103 | a fresh player is paused at time zero |
| `VideoPlayer.Player.Pause` | Overplay-UIKit/ViewController.swift:104-107 | the state is `paused` whatever it was, so pausing is idempotent |
| `VideoPlayer.Player.Play` | Overplay-UIKit/ViewController.swift:109-112 | the state is `playing` whatever it was, so playing is idempotent |
| `VideoPlayer.Player.PlayOrPause` | Overplay-UIKit/ViewController.swift:114-120 | playing becomes paused and paused becomes playing; the result is "PLAYING" or "PAUSED" for the new state |
| `VideoPlayer.Player.Seek` | Overplay-UIKit/ViewController.swift:96-97 | the current time becomes the millisecond target divided by the timescale 1000 |
| `VideoPlayer.PlayOrPauseTwice` | Overplay-UIKit/ViewController.swift:114-120 | two toggles restore the state; the two labels differ and the second names the original state |
| `Tilt.Classify` | Overplay-UIKit/ViewController.swift:69-73 | decrease exactly on [0.50, 3.14], increase exactly on (3.14, 5.78], nothing below 0.50 or above 5.78 |
| `Tilt.ZonesOrdered` | Overplay-UIKit/ViewController.swift:22-23 | every decrease angle is smaller than every increase angle |
| `Tilt.ZonesIndependent` | Overplay-UIKit/ViewController.swift:68-82 | any pair of volume zone and seek zone is produced by some pair of angles in [0, 2*pi], the range of `atan2(...) + pi`, both on the same side of the vertical as one sample's angles are, so one sample may trigger both, either or neither |
| `Volume.Delta` | Overplay-UIKit/ViewController.swift:124-127 | the step is +0.05 for increase and -0.05 for decrease |
| `Volume.VolumeAfter` | Overplay-UIKit/ViewController.swift:129-143 | the guard of `canChange` (predicate `Volume.CanChange`) and the step together: a decrease leaves the value unchanged iff it equals the minimum, an increase iff it equals the maximum; otherwise the value moves by exactly 0.05 in the action's direction |
| `Volume.DecreasesStopAtMin` | Overplay-UIKit/ViewController.swift:129-142 | from k steps above the minimum, n decreases land max(k-n, 0) steps above it, so on the grid the value never drops below the minimum |
| `Volume.IncreasesStopAtMax` | Overplay-UIKit/ViewController.swift:129-142 | from k steps below the maximum, n increases land max(k-n, 0) steps below it, so on the grid the value never exceeds the maximum |
| `Volume.DecreaseOffGridPassesMin` | Overplay-UIKit/ViewController.swift:131 | the equality guard lets a value 0.02 above the minimum step to 0.03 below it |
| `Volume.Slider.ChangeVolume` | Overplay-UIKit/ViewController.swift:136-143 | the slider value after the call is the guarded step of the old value; only the value changes |
| `Seek.Destination` | Overplay-UIKit/ViewController.swift:91-94 | the destination is the current time plus or minus 5 s, raised to 0 when negative, hence never negative |
| `Seek.Millis` | Overplay-UIKit/ViewController.swift:96 | the target in milliseconds is non-negative and at most 1 ms below the destination |
| `Seek.SeekTarget` | Overplay-UIKit/ViewController.swift:87-98 | there is no target iff the duration is missing or the destination is not strictly before it; a target is the truncated destination and lies before the end |
| `Seek.SeekLandsBeforeDestination` | Overplay-UIKit/ViewController.swift:95-97 | a seek lands at or within 1 ms before the destination and strictly before the duration |
| `Controller.Decimal` | Overplay-UIKit/ViewController.swift:78 | the interpolated integer is a non-empty string of decimal digits that denotes the integer, with no leading zero |
| `Controller.SeekLabelValues` | Overplay-UIKit/ViewController.swift:76-82 | the seek labels are exactly "-5 SECONDS" and "+5 SECONDS" |
| `Controller.VolumeCommand` | Overplay-UIKit/ViewController.swift:68-73 | the Z zone selects decrease, increase or no volume change, one for one |
| `Controller.SeekCommand` | Overplay-UIKit/ViewController.swift:75-82 | the X zone selects a backward seek, a forward seek or none, one for one |
| `Controller.PositionAfterPlayback` | Overplay-UIKit/ViewController.swift:87-98 | without a duration, or with a destination at or past it, the time is unchanged; otherwise it lands within 1 ms before the destination, which is non-negative and before the duration |
| `Controller.ViewController.constructor` | Overplay-UIKit/ViewController.swift:27-38 | the screen starts a fresh player playing at time zero; the label keeps the text it was given |
| `Controller.ViewController.LocationUpdated` | Overplay-UIKit/ViewController.swift:51-54 | every location update sets the time to 0 and the label to "RESTARTED" |
| `Controller.ViewController.MotionEnded` | Overplay-UIKit/ViewController.swift:57-59 | a shake flips the state and shows the new state's label; any other subtype changes nothing |
| `Controller.ViewController.Playback` | Overplay-UIKit/ViewController.swift:87-98 | the player's time becomes the result of the seek rule and stays non-negative |
| `Controller.ViewController.DeviceMotionUpdate` | Overplay-UIKit/ViewController.swift:61-85 | the Z angle alone decides the volume step and the X angle alone decides the seek and the label; a neutral angle changes nothing on its side |

## Left out

- View lifecycle, `AVPlayerLayer` and frame setup, outlet wiring and the hardcoded video URL: user interface and network I/O. The constructor of `ViewController` stands for `viewDidLoad` once the item's duration is known.
- Controller.ViewController.constructor: the label's first text comes from the interface file, which is not modelled; it is a parameter.
- Location-manager setup (authorisation, accuracy, distance filter, starting updates): platform services. Only the update handler's effect is modelled, and the list of locations it receives is not.
- Motion-manager setup (availability check, the 0.25 s interval, delivery on the main queue) and the `atan2(...) + pi` computation: asynchronous sensor plumbing and floating-point trigonometry. `DeviceMotionUpdate` takes the two shifted angles as inputs.
- `Double`/`Float` rounding, `CMTime` internals and AVPlayer's real seek semantics: times and volumes are `real`, and a seek lands exactly on the requested millisecond time. An indefinite (NaN) duration, which makes the comparison false, is not modelled; the duration is either known or absent. `Seek.Millis` returns an unbounded integer, so the trap of `Int64(...)` for a product of 2^63 or more (a destination of about 2.9*10^5 years) is not modelled.
- Volume.Slider.ChangeVolume: the 10 ms `asyncAfter` delay is not modelled (the step happens at once), and neither is UISlider's clamping of `value` to its bounds, so the modelled value can leave [minimum, maximum] when it is off the 0.05 grid.
- The search for the `UISlider` inside a new `MPVolumeView` is modelled only by its outcome: the controller's slider is present or null.
- VideoPlayer.UpperCased: models `uppercased()` for ASCII letters only; the raw values it is applied to are ASCII.
- `super.play()` and `super.pause()`: AVPlayer's own playback is not modelled; only the `state` field is.
