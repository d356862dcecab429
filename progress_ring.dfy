/**
  The bookkeeping of ProgressRingView.swift: the ring's value, its pause
  state and the value frozen on pause, the end-cap style mappings, and the
  part of the drawing layer those properties mirror. Whether an animation is
  attached to the layer (`isAnimating`) and the value the presentation layer
  currently shows are Core Animation state, so they are inputs here.
*/
module ProgressRing {

  datatype Option<T> = None | Some(value: T)

  /** `CGLineCap`. */
  datatype LineCap = Butt | Round | Square

  /**
    The `didSet` mapping of both `outerRingCapStyle` and `innerRingCapStyle`:
    1 is butt, 2 is round, 3 is square and every other value is butt.
  */
  function CapFor(style: int): (cap: LineCap)
    ensures cap == Round <==> style == 2
    ensures cap == Square <==> style == 3
    ensures cap == Butt <==> style != 2 && style != 3
  {
    match style
    case 1 => Butt
    case 2 => Round
    case 3 => Square
    case _ => Butt
  }

  class ProgressRingView {
    var value: real
    var maxValue: real
    var isPaused: bool
    var pausedValue: Option<real>
    var outerRingCapStyle: int
    var outStyle: LineCap
    var innerRingCapStyle: int
    var inStyle: LineCap

    // The properties of the drawing layer that the view keeps in step.
    var layerValue: real
    var layerMaxValue: real
    var layerAnimated: bool
    var layerAnimationDuration: real
    var layerOuterCap: LineCap
    var layerInnerCap: LineCap

    /** The view and its layer agree, and each cap follows its style number. */
    ghost predicate Valid()
      reads this
    {
      && layerValue == value
      && layerMaxValue == maxValue
      && outStyle == CapFor(outerRingCapStyle) && layerOuterCap == outStyle
      && inStyle == CapFor(innerRingCapStyle) && layerInnerCap == inStyle
    }

    /** The stored defaults and `initialize()`, which copies them to the layer. */
    constructor ()
      ensures Valid()
      ensures value == 0.0 && maxValue == 100.0 && !isPaused && pausedValue == None
      ensures outerRingCapStyle == 1 && outStyle == Butt
      ensures innerRingCapStyle == 2 && inStyle == Round
      ensures !layerAnimated && layerAnimationDuration == 0.0
    {
      value, maxValue := 0.0, 100.0;
      isPaused, pausedValue := false, None;
      outerRingCapStyle, outStyle := 1, Butt;
      innerRingCapStyle, inStyle := 2, Round;
      layerValue, layerMaxValue := 0.0, 100.0;
      layerAnimated, layerAnimationDuration := false, 0.0;
      layerOuterCap, layerInnerCap := Butt, Round;
    }

    /**
      `currentValue`: the live presentation value while an unpaused animation
      runs, the value frozen by `pause` while a paused animation is attached,
      and the model value otherwise.
    */
    function CurrentValue(animating: bool, presentation: Option<real>): (v: Option<real>)
      reads this
      ensures !animating ==> v == Some(value)
      ensures animating && isPaused ==> v == pausedValue
      ensures animating && !isPaused ==> v == presentation
    {
      if animating && !isPaused then presentation
      else if animating && isPaused then pausedValue
      else Some(value)
    }

    /** While paused, what `currentValue` reports does not depend on the presentation layer. */
    lemma PausedIgnoresPresentation(animating: bool, p: Option<real>, q: Option<real>)
      requires isPaused
      ensures CurrentValue(animating, p) == CurrentValue(animating, q)
    {
    }

    /** `setProgress(value:animationDuration:completion:)`; the completion is delivered to the caller as a separate event. */
    method SetProgress(newValue: real, animationDuration: real)
      requires Valid()
      modifies this
      ensures Valid()
      ensures value == newValue
      ensures layerAnimated == (animationDuration > 0.0) && layerAnimationDuration == animationDuration
      ensures isPaused == old(isPaused) && pausedValue == old(pausedValue) && maxValue == old(maxValue)
      ensures outerRingCapStyle == old(outerRingCapStyle) && innerRingCapStyle == old(innerRingCapStyle)
    {
      layerAnimated := animationDuration > 0.0;
      layerAnimationDuration := animationDuration;
      value := newValue;
      layerValue := newValue;
    }

    method Stop()
      requires Valid()
      modifies this
      ensures Valid()
      ensures value == 0.0
      ensures isPaused == old(isPaused) && pausedValue == old(pausedValue) && maxValue == old(maxValue)
      ensures layerAnimated == old(layerAnimated) && layerAnimationDuration == old(layerAnimationDuration)
      ensures outerRingCapStyle == old(outerRingCapStyle) && innerRingCapStyle == old(innerRingCapStyle)
    {
      value := 0.0;
      layerValue := 0.0;
    }

    /**
      `pause()` sets `isPaused` before it reads `currentValue`, so while an
      animation is attached the value frozen earlier is kept, and otherwise the
      model value is frozen; the presentation value is never consulted.
    */
    method Pause(animating: bool, presentation: Option<real>)
      requires Valid()
      modifies this
      ensures Valid()
      ensures isPaused
      ensures pausedValue == (if animating then old(pausedValue) else Some(value))
      ensures CurrentValue(animating, presentation) == pausedValue
      ensures value == old(value) && maxValue == old(maxValue)
      ensures layerAnimated == old(layerAnimated) && layerAnimationDuration == old(layerAnimationDuration)
      ensures outerRingCapStyle == old(outerRingCapStyle) && innerRingCapStyle == old(innerRingCapStyle)
    {
      isPaused := true;
      pausedValue := CurrentValue(animating, presentation);
    }

    method Resume()
      requires Valid()
      modifies this
      ensures Valid()
      ensures !isPaused
      ensures value == old(value) && pausedValue == old(pausedValue) && maxValue == old(maxValue)
      ensures layerAnimated == old(layerAnimated) && layerAnimationDuration == old(layerAnimationDuration)
      ensures outerRingCapStyle == old(outerRingCapStyle) && innerRingCapStyle == old(innerRingCapStyle)
    {
      isPaused := false;
    }

    /** Assigning `outerRingCapStyle` and its `didSet` observer. */
    method SetOuterRingCapStyle(style: int)
      requires Valid()
      modifies this
      ensures Valid()
      ensures outerRingCapStyle == style && outStyle == CapFor(style) && layerOuterCap == outStyle
      ensures innerRingCapStyle == old(innerRingCapStyle) && inStyle == old(inStyle)
      ensures value == old(value) && isPaused == old(isPaused) && pausedValue == old(pausedValue)
      ensures maxValue == old(maxValue) && layerAnimated == old(layerAnimated)
      ensures layerAnimationDuration == old(layerAnimationDuration)
    {
      outerRingCapStyle := style;
      match style {
        case 1 => outStyle := Butt; layerOuterCap := Butt;
        case 2 => outStyle := Round; layerOuterCap := Round;
        case 3 => outStyle := Square; layerOuterCap := Square;
        case _ => outStyle := Butt; layerOuterCap := Butt;
      }
    }

    /** Assigning `innerRingCapStyle` and its `didSet` observer. */
    method SetInnerRingCapStyle(style: int)
      requires Valid()
      modifies this
      ensures Valid()
      ensures innerRingCapStyle == style && inStyle == CapFor(style) && layerInnerCap == inStyle
      ensures outerRingCapStyle == old(outerRingCapStyle) && outStyle == old(outStyle)
      ensures value == old(value) && isPaused == old(isPaused) && pausedValue == old(pausedValue)
      ensures maxValue == old(maxValue) && layerAnimated == old(layerAnimated)
      ensures layerAnimationDuration == old(layerAnimationDuration)
    {
      innerRingCapStyle := style;
      match style {
        case 1 => inStyle := Butt; layerInnerCap := Butt;
        case 2 => inStyle := Round; layerInnerCap := Round;
        case 3 => inStyle := Square; layerInnerCap := Square;
        case _ => inStyle := Butt; layerInnerCap := Butt;
      }
    }
  }
}
