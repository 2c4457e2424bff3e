/** The volume step of the `MPVolumeView` extension: a tilt nudges the system
    volume slider by 0.05 up or down, unless the slider already sits exactly on
    the bound in that direction. */
module Volume {
  datatype VolumeAction = Increase | Decrease

  /** The action's raw value, the signed step added to the slider. */
  function Delta(action: VolumeAction): (d: real)
    ensures d == 0.05 || d == -0.05
    ensures d > 0.0 <==> action == Increase
  {
    match action
    case Increase => 0.05
    case Decrease => -0.05
  }

  /** `canChange(action:on:)`: a decrease is refused only when the value is the
      minimum, an increase only when it is the maximum. */
  predicate CanChange(action: VolumeAction, value: real, min: real, max: real)
  {
    match action
    case Decrease => value != min
    case Increase => value != max
  }

  /** The slider value after `changeVolume(action)`. */
  function VolumeAfter(action: VolumeAction, value: real, min: real, max: real): (v: real)
    ensures action == Decrease ==> (v == value <==> value == min)
    ensures action == Increase ==> (v == value <==> value == max)
    ensures v == value || v == value + 0.05 || v == value - 0.05
    ensures v > value ==> action == Increase
    ensures v < value ==> action == Decrease
  {
    if CanChange(action, value, min, max) then value + Delta(action) else value
  }

  /** The value after `n` consecutive decreases, one per tilted sample. */
  function DecreasedTimes(value: real, min: real, max: real, n: nat): real
  {
    if n == 0 then value
    else VolumeAfter(Decrease, DecreasedTimes(value, min, max, n - 1), min, max)
  }

  /** The value after `n` consecutive increases. */
  function IncreasedTimes(value: real, min: real, max: real, n: nat): real
  {
    if n == 0 then value
    else VolumeAfter(Increase, IncreasedTimes(value, min, max, n - 1), min, max)
  }

  /** The equality guard is a floor only on the step grid: a value `k` steps
      above the minimum reaches it after `k` decreases and then stays there. */
  lemma {:induction false} DecreasesStopAtMin(value: real, min: real, max: real, k: nat, n: nat)
    requires value == min + k as real * 0.05
    ensures DecreasedTimes(value, min, max, n)
         == min + (if n <= k then k - n else 0) as real * 0.05
  {
    if n > 0 {
      DecreasesStopAtMin(value, min, max, k, n - 1);
    }
  }

  /** Off the grid the guard does not hold the value at the minimum: one step
      down from 0.02 above it goes 0.03 below it (the slider itself clamps
      such a value, which this model leaves out). */
  lemma DecreaseOffGridPassesMin(min: real, max: real)
    ensures VolumeAfter(Decrease, min + 0.02, min, max) == min - 0.03
  {
  }

  /** The mirror image: a value `k` steps below the maximum reaches it after
      `k` increases and then stays there. */
  lemma {:induction false} IncreasesStopAtMax(value: real, min: real, max: real, k: nat, n: nat)
    requires value == max - k as real * 0.05
    ensures IncreasedTimes(value, min, max, n)
         == max - (if n <= k then k - n else 0) as real * 0.05
  {
    if n > 0 {
      IncreasesStopAtMax(value, min, max, k, n - 1);
    }
  }

  /** The `UISlider` behind `MPVolumeView`; its bounds are read, never written. */
  class Slider {
    var value: real
    var minimumValue: real
    var maximumValue: real

    constructor (value: real, minimumValue: real, maximumValue: real)
      ensures this.value == value
      ensures this.minimumValue == minimumValue && this.maximumValue == maximumValue
    {
      this.value := value;
      this.minimumValue := minimumValue;
      this.maximumValue := maximumValue;
    }

    /** `canChange(action:on:)` on this slider. */
    predicate CanChangeNow(action: VolumeAction)
      reads this
    {
      CanChange(action, value, minimumValue, maximumValue)
    }

    /** `changeVolume(action)`: the guarded step, applied at once. */
    method ChangeVolume(action: VolumeAction)
      modifies this`value
      ensures value == VolumeAfter(action, old(value), minimumValue, maximumValue)
      ensures old(CanChangeNow(action)) ==> value == old(value) + Delta(action)
      ensures !old(CanChangeNow(action)) ==> value == old(value)
    {
      if !CanChangeNow(action) {
        return;
      }
      value := value + Delta(action);
    }
  }
}
