/**
  The instruction generator of GameView.swift (`speakRandomDirection`): the
  five gesture words, the spoken phrase built from one of them, the
  anti-repeat tie-break and the misleading on-screen label. The session
  matches gestures with Swift's `String.contains`, which is modelled here as
  a literal substring test; the lemmas show that on every phrase the game can
  speak it amounts to comparing gesture indices.
*/
module Instructions {

  /** `Defaults.gestures`. */
  const Gestures: seq<string> := ["up", "left", "down", "tap", "right"]
  /** Index of "tap" in `Gestures`. */
  const TapIndex: nat := 3

  /** `w` occurs in `s` starting at position `i`. */
  predicate OccursAt(s: string, w: string, i: nat)
  {
    i + |w| <= |s| && s[i..i + |w|] == w
  }

  /** `w` occurs in `s` at some position `i` or later. */
  predicate ContainsFrom(s: string, w: string, i: nat)
    decreases |s| - i
  {
    i <= |s| && (OccursAt(s, w, i) || ContainsFrom(s, w, i + 1))
  }

  /** `s.contains(w)`. */
  predicate Contains(s: string, w: string)
  {
    ContainsFrom(s, w, 0)
  }

  /** An occurrence at or after `i` is found by the search from `i`. */
  lemma {:induction false} OccursImpliesContainsFrom(s: string, w: string, i: nat, k: nat)
    requires i <= k && OccursAt(s, w, k)
    ensures ContainsFrom(s, w, i)
    decreases k - i
  {
    if i < k {
      OccursImpliesContainsFrom(s, w, i + 1, k);
    }
  }

  /** If no position from `i` on that leaves room for `w` holds `w`'s first character, `w` is not found. */
  lemma {:induction false} FirstCharAbsent(s: string, w: string, i: nat)
    requires |w| > 0
    requires forall k :: i <= k && k + |w| <= |s| ==> s[k] != w[0]
    ensures !ContainsFrom(s, w, i)
    decreases |s| - i
  {
    if i <= |s| {
      assert !OccursAt(s, w, i) by {
        if i + |w| <= |s| {
          assert s[i..i + |w|][0] == s[i];
        }
      }
      FirstCharAbsent(s, w, i + 1);
    }
  }

  /** Of the five gesture words only "tap" contains "tap". */
  lemma {:induction false} TapOnlyInTap(i: nat)
    requires i < |Gestures|
    ensures Contains(Gestures[i], "tap") <==> i == TapIndex
  {
    if i == TapIndex {
      OccursImpliesContainsFrom(Gestures[i], "tap", 0, 0);
    } else {
      FirstCharAbsent(Gestures[i], "tap", 0);
    }
  }

  /**
    The phrase spoken for gesture `i`: "Swipe " and the word while
    `speakWithSwipe` holds and the word is not a tap, the bare word otherwise.
  */
  function Phrase(i: nat, speakWithSwipe: bool): (p: string)
    requires i < |Gestures|
    ensures p == if speakWithSwipe && i != TapIndex then "Swipe " + Gestures[i] else Gestures[i]
  {
    TapOnlyInTap(i);
    if speakWithSwipe && !Contains(Gestures[i], "tap") then "Swipe " + Gestures[i] else Gestures[i]
  }

  /** A spoken phrase contains gesture word `j` exactly when it was built from gesture `j`. */
  lemma {:induction false} PhraseMentions(i: nat, speakWithSwipe: bool, j: nat)
    requires i < |Gestures| && j < |Gestures|
    ensures Contains(Phrase(i, speakWithSwipe), Gestures[j]) <==> i == j
  {
    var p := Phrase(i, speakWithSwipe);
    if i == j {
      OccursImpliesContainsFrom(p, Gestures[j], 0, |p| - |Gestures[j]|);
    } else {
      FirstCharAbsent(p, Gestures[j], 0);
    }
  }

  /** The empty initial `spokenDirection` contains no gesture word. */
  lemma {:induction false} EmptyMentionsNothing(j: nat)
    requires j < |Gestures|
    ensures !Contains("", Gestures[j])
  {
    FirstCharAbsent("", Gestures[j], 0);
  }

  /** Phrases built from different gestures differ, whatever their "Swipe " prefixes. */
  lemma {:induction false} PhraseInjective(i: nat, a: bool, j: nat, b: bool)
    requires i < |Gestures| && j < |Gestures|
    requires Phrase(i, a) == Phrase(j, b)
    ensures i == j
  {
    PhraseMentions(i, a, i);
    PhraseMentions(j, b, i);
  }

  /** The anti-repeat tie-break: `r - 1`, or 1 when `r` is 0. */
  function ShiftedIndex(r: nat): (i: nat)
    requires r < |Gestures|
    ensures i < |Gestures| && i != r
  {
    if r != 0 then r - 1 else 1
  }

  /**
    The gesture index `speakRandomDirection` settles on for the random pick
    `r`: the pick itself, unless it would repeat the previous phrase while
    fewer than 10 seconds have passed, in which case the shifted index, whose
    phrase differs from the previous one.
  */
  function NextIndex(r: nat, previous: string, speakWithSwipe: bool, seconds: int): (i: nat)
    requires r < |Gestures|
    ensures i < |Gestures|
    ensures Phrase(r, speakWithSwipe) != previous || seconds >= 10 ==> i == r
    ensures Phrase(r, speakWithSwipe) == previous && seconds < 10 ==>
      i == ShiftedIndex(r) && Phrase(i, speakWithSwipe) != previous
  {
    if Phrase(r, speakWithSwipe) == previous && seconds < 10 then
      var i := ShiftedIndex(r);
      assert Phrase(i, speakWithSwipe) != previous by {
        if Phrase(i, speakWithSwipe) == previous {
          PhraseInjective(i, speakWithSwipe, r, speakWithSwipe);
        }
      }
      i
    else
      r
  }

  /**
    The index of the word on the action label: `i - 1` when `0 < i <= 5`,
    `i + 1` otherwise; it is always a gesture and never the spoken one.
  */
  function LabelIndex(i: nat): (l: nat)
    requires i < |Gestures|
    ensures l < |Gestures| && l != i
    ensures i > 0 ==> l + 1 == i
    ensures i == 0 ==> l == 1
  {
    if i <= |Gestures| && i > 0 then i - 1 else i + 1
  }
}
