/** Edge-triggered push buttons (isButtonPressed). The buttons are wired with
    pull-ups, so the idle level is HIGH and a held button reads LOW; a press is
    reported on the falling edge only. */
module Buttons {

  /** Levels as digitalRead returns them. */
  const HIGH: bool := true
  const LOW: bool := false

  /** The test isButtonPressed applies: the raw level is LOW and the level
      seen on the previous poll was HIGH. */
  predicate IsPress(prev: bool, raw: bool)
  {
    raw == LOW && prev == HIGH
  }

  /** One physical button together with the level it showed on its last poll
      (the reference parameter `prevState` of isButtonPressed). */
  class Button {
    var prev: bool

    /** Both buttons start with their previous level HIGH. */
    constructor ()
      ensures prev == HIGH
    {
      prev := HIGH;
    }

    /** Poll the button once with the raw level just read. */
    method IsPressed(raw: bool) returns (pressed: bool)
      modifies this
      ensures pressed <==> raw == LOW && old(prev) == HIGH
      ensures prev == raw
    {
      if raw == LOW && prev == HIGH {
        // the source waits 50 ms here; timing is not modelled
        prev := raw;
        return true;
      }
      prev := raw;
      return false;
    }
  }

  /** What successive polls of one button report, starting from the stored
      level `prev` and reading the raw levels `raws` in order; one report per
      poll (see PressesAt for what each report says). */
  function Presses(prev: bool, raws: seq<bool>): (r: seq<bool>)
    ensures |r| == |raws|
    decreases |raws|
  {
    if raws == [] then [] else [IsPress(prev, raws[0])] + Presses(raws[0], raws[1..])
  }

  /** The level the button showed on the poll before poll i. */
  function LevelBefore(prev: bool, raws: seq<bool>, i: int): bool
    requires 0 <= i < |raws|
  {
    if i == 0 then prev else raws[i - 1]
  }

  /** Poll i reports a press exactly when its raw level is LOW and the level
      of the poll before was HIGH: no report on a held LOW, none on release. */
  lemma {:induction false} PressesAt(prev: bool, raws: seq<bool>, i: int)
    requires 0 <= i < |raws|
    ensures Presses(prev, raws)[i] <==> IsPress(LevelBefore(prev, raws, i), raws[i])
    decreases |raws|
  {
    if i > 0 {
      PressesAt(raws[0], raws[1..], i - 1);
    }
  }

  /** Number of true entries. */
  function Count(bs: seq<bool>): nat
  {
    if bs == [] then 0 else (if bs[0] then 1 else 0) + Count(bs[1..])
  }

  /** The level falls from HIGH to LOW between samples i and i + 1. */
  predicate FallsAt(levels: seq<bool>, i: int)
    requires 0 <= i < |levels| - 1
  {
    levels[i] == HIGH && levels[i + 1] == LOW
  }

  /** Marks, position by position, where a level trace falls. */
  function FallMarks(levels: seq<bool>): (m: seq<bool>)
    ensures |m| == if levels == [] then 0 else |levels| - 1
    ensures forall i :: 0 <= i < |m| ==> (m[i] <==> FallsAt(levels, i))
  {
    if |levels| < 2 then []
    else seq(|levels| - 1, i requires 0 <= i < |levels| - 1 => FallsAt(levels, i))
  }

  /** Number of HIGH-to-LOW transitions in a level trace. */
  function Falls(levels: seq<bool>): nat
  {
    Count(FallMarks(levels))
  }

  /** Presses reported over any run of polls = number of HIGH-to-LOW
      transitions in the level trace that starts with the stored level. */
  lemma PressesCountFalls(prev: bool, raws: seq<bool>)
    ensures Count(Presses(prev, raws)) == Falls([prev] + raws)
  {
    var l := [prev] + raws;
    forall i | 0 <= i < |raws|
      ensures Presses(prev, raws)[i] == FallMarks(l)[i]
    {
      PressesAt(prev, raws, i);
      assert l[i] == LevelBefore(prev, raws, i) && l[i + 1] == raws[i];
    }
    assert Presses(prev, raws) == FallMarks(l);
  }

  /** A sequence without a true entry counts zero. */
  lemma {:induction false} CountNone(bs: seq<bool>)
    requires forall i :: 0 <= i < |bs| ==> !bs[i]
    ensures Count(bs) == 0
  {
    if bs != [] {
      CountNone(bs[1..]);
    }
  }

  /** A press is reported at most once per transition: between two reported
      presses the button was seen released (HIGH) at least once. */
  lemma NoRepeatWhileHeld(prev: bool, raws: seq<bool>, i: int, j: int)
    requires 0 <= i < j < |raws|
    requires Presses(prev, raws)[i] && Presses(prev, raws)[j]
    ensures exists k :: i < k < j && raws[k] == HIGH
  {
    PressesAt(prev, raws, i);
    PressesAt(prev, raws, j);
    assert raws[j - 1] == HIGH;
  }

  /** A button already held LOW at the first poll is reported exactly once
      however long it stays held, because the stored level starts HIGH. */
  lemma HeldFromStart(n: nat)
    requires n >= 1
    ensures Count(Presses(HIGH, seq(n, _ => LOW))) == 1
  {
    var held := seq(n, _ => LOW);
    var r := Presses(HIGH, held);
    PressesAt(HIGH, held, 0);
    forall i | 0 <= i < |r[1..]| ensures !r[1..][i] {
      PressesAt(HIGH, held, i + 1);
    }
    CountNone(r[1..]);
  }
}
