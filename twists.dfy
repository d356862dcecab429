/**
  The range construction of Twist.swift: each kind of speech effect has a
  fixed output range, and a `Twist` holds an ordered range of user values
  snapped into 0...150.
*/
module Twists {
  import opened Snapping

  datatype TwistType = Pitch | Speed | Volume

  /**
    `TwistType.twistRange`, held in tenths so that the bounds stay exact:
    pitch 0.5...2.0, speed 0.1...2.0, volume 0.0...1.0.
  */
  function TwistRangeTenths(kind: TwistType): (r: ClosedRange)
    ensures 0 <= r.lowerBound < r.upperBound <= 20
    ensures r.upperBound == (if kind == Volume then 10 else 20)
    ensures r.lowerBound == (match kind case Pitch => 5 case Speed => 1 case Volume => 0)
  {
    match kind
    case Pitch => ClosedRange(5, 20)
    case Speed => ClosedRange(1, 20)
    case Volume => ClosedRange(0, 10)
  }

  datatype Twist = Twist(kind: TwistType, valueRange: ClosedRange)

  /** `Twist.init(type:effectFrom:to:)`. */
  function MakeTwist(kind: TwistType, startValue: int, endValue: int): (t: Twist)
    ensures t.kind == kind
    ensures t.valueRange.Valid()
    ensures UserValueRange.Contains(t.valueRange.lowerBound)
    ensures UserValueRange.Contains(t.valueRange.upperBound)
    ensures var first, second := SnappedTo(startValue, UserValueRange), SnappedTo(endValue, UserValueRange);
      (t.valueRange.lowerBound, t.valueRange.upperBound) in {(first, second), (second, first)}
  {
    var first := SnappedTo(startValue, UserValueRange);
    var second := SnappedTo(endValue, UserValueRange);
    if first < second then
      Twist(kind, ClosedRange(first, second))
    else
      Twist(kind, ClosedRange(second, first))
  }

  /** The order in which the two endpoints are given does not matter. */
  lemma MakeTwistSymmetric(kind: TwistType, startValue: int, endValue: int)
    ensures MakeTwist(kind, startValue, endValue) == MakeTwist(kind, endValue, startValue)
  {
  }

  /** Endpoints that snap to the same value give a one-element range. */
  lemma MakeTwistSingleton(kind: TwistType, startValue: int, endValue: int)
    requires SnappedTo(startValue, UserValueRange) == SnappedTo(endValue, UserValueRange)
    ensures MakeTwist(kind, startValue, endValue).valueRange.Count() == 1
  {
  }
}
