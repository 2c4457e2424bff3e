/** The two-valued playback state and the AVPlayer subclass that keeps it
    (`VideoState` and `CustomAVPlayer` in ViewController.swift). */
module VideoPlayer {
  import opened Wrappers

  datatype VideoState = Playing | Paused

  /** The enum's raw value: Swift's `String` raw values are the case names. */
  function RawValue(s: VideoState): (r: string)
  {
    match s
    case Playing => "playing"
    case Paused => "paused"
  }

  /** The state `playOrPause` switches to. */
  function Flipped(s: VideoState): (r: VideoState)
    ensures r != s
  {
    match s
    case Playing => Paused
    case Paused => Playing
  }

  /** Upper-casing of one character; only ASCII letters are mapped. */
  function UpperChar(c: char): (u: char)
  {
    if 'a' <= c <= 'z' then (c as int - 32) as char else c
  }

  /** `String.uppercased()`, restricted to ASCII: the result has the same
      length and every character is the upper-cased input character. */
  function UpperCased(s: string): (r: string)
    ensures |r| == |s|
    ensures forall i :: 0 <= i < |s| ==> r[i] == UpperChar(s[i])
  {
    if s == [] then [] else [UpperChar(s[0])] + UpperCased(s[1..])
  }

  /** The label `playOrPause` returns for the state it has just entered. */
  function Label(s: VideoState): string
  {
    UpperCased(RawValue(s))
  }

  /** The two labels a shake can show. */
  lemma LabelValues()
    ensures Label(Playing) == "PLAYING"
    ensures Label(Paused) == "PAUSED"
  {
  }

  /** Two labels are equal only for equal states, so the label tells the
      user which state the player is in. */
  lemma LabelDeterminesState(s: VideoState, t: VideoState)
    requires Label(s) == Label(t)
    ensures s == t
  {
  }

  /** The state after `n` consecutive toggles. */
  function ToggledTimes(s: VideoState, n: nat): VideoState
  {
    if n == 0 then s else Flipped(ToggledTimes(s, n - 1))
  }

  /** An even number of toggles restores the state and an odd number flips it. */
  lemma {:induction false} ToggledTimesParity(s: VideoState, n: nat)
    ensures ToggledTimes(s, n) == if n % 2 == 0 then s else Flipped(s)
  {
    if n > 0 {
      ToggledTimesParity(s, n - 1);
    }
  }

  /** `CustomAVPlayer`. Beside the `state` field it stands for the two pieces of
      AVPlayer state the controller reads and writes: the current time in
      seconds and the current item's duration (absent when there is no item
      or its duration is not known). */
  class Player {
    var state: VideoState
    var position: real
    var duration: Option<real>

    /** A new player is paused, at time zero. */
    constructor (duration: Option<real>)
      ensures state == Paused
      ensures position == 0.0
      ensures this.duration == duration
    {
      state := Paused;
      position := 0.0;
      this.duration := duration;
    }

    method Pause()
      modifies this`state
      ensures state == Paused
    {
      state := Paused;
    }

    method Play()
      modifies this`state
      ensures state == Playing
    {
      state := Playing;
    }

    /** Flips the state and returns the upper-cased name of the new state. */
    method PlayOrPause() returns (text: string)
      modifies this`state
      ensures state == Flipped(old(state))
      ensures text == Label(state)
      ensures text == (if state == Playing then "PLAYING" else "PAUSED")
    {
      match state {
        case Playing => Pause();
        case Paused => Play();
      }
      text := UpperCased(RawValue(state));
      LabelValues();
    }

    /** `seek(to:)` with a time of `millis` thousandths of a second; AVPlayer's
        own seeking is taken to land exactly on the requested time. */
    method Seek(millis: int)
      modifies this`position
      ensures position == millis as real / 1000.0
    {
      position := millis as real / 1000.0;
    }
  }

  /** Two calls of `playOrPause` restore the state and report both states. */
  method PlayOrPauseTwice(p: Player) returns (first: string, second: string)
    modifies p`state
    ensures p.state == old(p.state)
    ensures first != second
    ensures second == Label(old(p.state))
  {
    first := p.PlayOrPause();
    second := p.PlayOrPause();
  }
}
