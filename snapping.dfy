/**
  Integer clamping and the clamped speech settings of Speech.swift:
  `Int.snapped(min:max:)`, `Int.snapped(to:)`, the `SnappedInteger` wrapper
  (a Swift struct, so a value here) and the `Speech` object whose default
  volume, speed and pitch are stored as snapped integers.
*/
module Snapping {

  function Min(a: int, b: int): int { if a <= b then a else b }
  function Max(a: int, b: int): int { if a >= b then a else b }

  /** A Swift `ClosedRange<Int>`; Swift refuses to build one whose bounds are out of order. */
  datatype ClosedRange = ClosedRange(lowerBound: int, upperBound: int) {
    predicate Valid() { lowerBound <= upperBound }
    predicate Contains(x: int) { lowerBound <= x <= upperBound }
    /** Number of integers in the range (Swift's `count`). */
    function Count(): int { upperBound - lowerBound + 1 }
  }

  /** `Constants.userValueRange`: every user-facing setting lives in 0...150. */
  const UserValueRange: ClosedRange := ClosedRange(0, 150)
  /** `Constants.maxUserValue`. */
  const MaxUserValue: int := UserValueRange.upperBound

  /** `x.snapped(min: lo, max: hi)`, i.e. `Swift.max(lo, Swift.min(hi, x))`. */
  function Snapped(x: int, lo: int, hi: int): (r: int)
    ensures lo <= hi ==> lo <= r <= hi
    ensures lo <= x <= hi ==> r == x
    ensures x < lo ==> r == lo
    ensures lo <= hi < x ==> r == hi
    ensures hi < lo ==> r == lo
  {
    Max(lo, Min(hi, x))
  }

  /** Snapping twice is snapping once. */
  lemma SnappedIdempotent(x: int, lo: int, hi: int)
    requires lo <= hi
    ensures Snapped(Snapped(x, lo, hi), lo, hi) == Snapped(x, lo, hi)
  {
  }

  /** `x.snapped(to: range)`: clamping into the range's two bounds. */
  function SnappedTo(x: int, range: ClosedRange): (r: int)
    requires range.Valid()
    ensures range.Contains(r)
    ensures range.Contains(x) ==> r == x
    ensures x < range.lowerBound ==> r == range.lowerBound
    ensures x > range.upperBound ==> r == range.upperBound
    ensures r == Snapped(x, range.lowerBound, range.upperBound)
  {
    Snapped(x, range.lowerBound, range.upperBound)
  }

  /** `SnappedInteger`: an integer kept inside a closed range. */
  datatype SnappedInteger = SnappedInteger(range: ClosedRange, integer: int) {
    predicate Valid() { range.Valid() && range.Contains(integer) }

    /** The getter of `snapped`. */
    function Snapped(): int { integer }

    /** The setter of `snapped`: a mutating setter on a struct yields the new struct value. */
    function WithSnapped(newValue: int): (s: SnappedInteger)
      requires Valid()
      ensures s.Valid() && s.range == range
      ensures s.Snapped() == SnappedTo(newValue, range)
      ensures range.Contains(newValue) ==> s.Snapped() == newValue
    {
      this.(integer := SnappedTo(newValue, range))
    }
  }

  /** `SnappedInteger.init(_:in:)`. */
  function MakeSnappedInteger(integer: int, range: ClosedRange): (s: SnappedInteger)
    requires range.Valid()
    ensures s.Valid() && s.range == range
    ensures s.Snapped() == SnappedTo(integer, range)
    ensures range.Contains(integer) ==> s.Snapped() == integer
  {
    SnappedInteger(range, SnappedTo(integer, range))
  }

  /** `SnappedInteger.init(snappedUserValueWithDefaultOf:)`: a snapped integer over 0...150. */
  function UserValue(integer: int): (s: SnappedInteger)
    ensures s.Valid() && s.range == UserValueRange
    ensures 0 <= s.Snapped() <= MaxUserValue
    ensures 0 <= integer <= 150 ==> s.Snapped() == integer
  {
    MakeSnappedInteger(integer, UserValueRange)
  }

  /** The settings part of `Speech`; the synthesizer itself is not modelled. */
  class Speech {
    var volumeSetting: SnappedInteger
    var speedSetting: SnappedInteger
    var pitchSetting: SnappedInteger

    ghost predicate Valid()
      reads this
    {
      && volumeSetting.Valid() && volumeSetting.range == UserValueRange
      && speedSetting.Valid() && speedSetting.range == UserValueRange
      && pitchSetting.Valid() && pitchSetting.range == UserValueRange
    }

    constructor ()
      ensures Valid()
      ensures DefaultVolume() == 5 && DefaultSpeed() == 30 && DefaultPitch() == 33
    {
      volumeSetting := UserValue(5);
      speedSetting := UserValue(30);
      pitchSetting := UserValue(33);
    }

    function DefaultVolume(): (v: int)
      reads this
      requires Valid()
      ensures UserValueRange.Contains(v)
    {
      volumeSetting.Snapped()
    }

    function DefaultSpeed(): (v: int)
      reads this
      requires Valid()
      ensures UserValueRange.Contains(v)
    {
      speedSetting.Snapped()
    }

    function DefaultPitch(): (v: int)
      reads this
      requires Valid()
      ensures UserValueRange.Contains(v)
    {
      pitchSetting.Snapped()
    }

    method SetDefaultVolume(newValue: int)
      requires Valid()
      modifies this
      ensures Valid()
      ensures DefaultVolume() == Snapped(newValue, 0, 150)
      ensures speedSetting == old(speedSetting) && pitchSetting == old(pitchSetting)
    {
      volumeSetting := volumeSetting.WithSnapped(newValue);
    }

    method SetDefaultSpeed(newValue: int)
      requires Valid()
      modifies this
      ensures Valid()
      ensures DefaultSpeed() == Snapped(newValue, 0, 150)
      ensures volumeSetting == old(volumeSetting) && pitchSetting == old(pitchSetting)
    {
      speedSetting := speedSetting.WithSnapped(newValue);
    }

    method SetDefaultPitch(newValue: int)
      requires Valid()
      modifies this
      ensures Valid()
      ensures DefaultPitch() == Snapped(newValue, 0, 150)
      ensures volumeSetting == old(volumeSetting) && speedSetting == old(speedSetting)
    {
      pitchSetting := pitchSetting.WithSnapped(newValue);
    }
  }
}
