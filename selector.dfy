/** The integer arithmetic of `IncrementSelector`, the "-" / value / "+"
    control used both for a device's virtual slot and for an axis's curve
    type. Its exclusion list is walked once, so it nudges the value past
    excluded entries without guaranteeing that it lands on a free one. */
module Selector {

  /** One pass of the exclusion loop after "-": each entry equal to the
      current value moves it down by one. */
  function ShiftDown(v: int, exclude: seq<int>): int
    decreases exclude
  {
    if exclude == [] then v
    else ShiftDown(if exclude[0] == v then v - 1 else v, exclude[1..])
  }

  /** One pass of the exclusion loop after "+". */
  function ShiftUp(v: int, exclude: seq<int>): int
    decreases exclude
  {
    if exclude == [] then v
    else ShiftUp(if exclude[0] == v then v + 1 else v, exclude[1..])
  }

  /** The value after the "-" button: one down, pinned to `min` when it
      reaches it, otherwise shifted down past the exclusion list. */
  function Decrement(value: int, min: int, exclude: seq<int>): int {
    var v := value - 1;
    if v <= min then min else ShiftDown(v, exclude)
  }

  /** The value after the "+" button: one up, clamped to `max`, then shifted
      up past the exclusion list (the clamp comes before the shift). */
  function Increment(value: int, max: int, exclude: seq<int>): int {
    var v := value + 1;
    ShiftUp(if v > max then max else v, exclude)
  }

  /** One frame of the control: the "-" button is handled before the "+" one. */
  function AfterFrame(value: int, min: int, max: int, exclude: seq<int>, minus: bool, plus: bool): int {
    var afterMinus := if minus then Decrement(value, min, exclude) else value;
    if plus then Increment(afterMinus, max, exclude) else afterMinus
  }

  /** `IncrementSelector`, with the two button presses of the frame as inputs. */
  method IncrementSelector(value: int, min: int, max: int, exclude: seq<int>, minus: bool, plus: bool)
    returns (result: int)
    ensures result == AfterFrame(value, min, max, exclude, minus, plus)
    ensures exclude == [] && minus && !plus ==> result == (if value - 1 <= min then min else value - 1)
    ensures exclude == [] && plus && !minus ==> result == (if value + 1 > max then max else value + 1)
    ensures !minus && !plus ==> result == value
  {
    result := value;
    if minus {
      result := result - 1;
      if result <= min {
        result := min;
      } else {
        var k := 0;
        while k < |exclude|
          invariant 0 <= k <= |exclude|
          invariant ShiftDown(result, exclude[k..]) == Decrement(value, min, exclude)
        {
          assert exclude[k..][1..] == exclude[k + 1..];
          if exclude[k] == result {
            result := result - 1;
          }
          k := k + 1;
        }
      }
    }
    ghost var afterMinus := result;
    if plus {
      result := result + 1;
      if result > max {
        result := max;
      }
      var k := 0;
      while k < |exclude|
        invariant 0 <= k <= |exclude|
        invariant ShiftUp(result, exclude[k..]) == Increment(afterMinus, max, exclude)
      {
        assert exclude[k..][1..] == exclude[k + 1..];
        if exclude[k] == result {
          result := result + 1;
        }
        k := k + 1;
      }
    }
  }

  /** Each entry of the exclusion list moves the value by at most one step, so
      the total extra shift is at most the list's length. */
  lemma {:induction false} ShiftBounds(v: int, exclude: seq<int>)
    ensures v - |exclude| <= ShiftDown(v, exclude) <= v
    ensures v <= ShiftUp(v, exclude) <= v + |exclude|
    decreases exclude
  {
    if exclude != [] {
      ShiftBounds(v - 1, exclude[1..]);
      ShiftBounds(v, exclude[1..]);
      ShiftBounds(v + 1, exclude[1..]);
    }
  }

  /** A value the exclusion list does not mention is left where it is. */
  lemma {:induction false} ShiftUnmatched(v: int, exclude: seq<int>)
    requires v !in exclude
    ensures ShiftDown(v, exclude) == v && ShiftUp(v, exclude) == v
    decreases exclude
  {
    if exclude != [] {
      assert exclude[0] != v;
      ShiftUnmatched(v, exclude[1..]);
    }
  }

  /** The shift happens only through a match: when the value does move, the
      value it started from is one of the excluded entries. */
  lemma ShiftMovesOnlyExcluded(v: int, exclude: seq<int>)
    ensures ShiftDown(v, exclude) != v ==> v in exclude
    ensures ShiftUp(v, exclude) != v ==> v in exclude
  {
    if v !in exclude {
      ShiftUnmatched(v, exclude);
    }
  }

  /** Without an exclusion list the control keeps a value that starts in
      `[min, max]` inside that range; this is what keeps an axis's curve type
      in 0..1, where the control is used with no exclusions. */
  lemma AfterFrameStaysInRange(value: int, min: int, max: int, minus: bool, plus: bool)
    requires min <= value <= max
    ensures min <= AfterFrame(value, min, max, [], minus, plus) <= max
  {
  }

  /** With an exclusion list the result is still within one list length of
      the clamped step. */
  lemma {:induction false} StepBounds(value: int, min: int, max: int, exclude: seq<int>)
    ensures var r := Decrement(value, min, exclude);
      r == min || (value - 1 - |exclude| <= r <= value - 1)
    ensures var c := if value + 1 > max then max else value + 1;
      c <= Increment(value, max, exclude) <= c + |exclude|
  {
    ShiftBounds(value - 1, exclude);
    ShiftBounds(if value + 1 > max then max else value + 1, exclude);
  }

  /** The single pass gives no uniqueness: "+" from 0 with 2 then 1 excluded
      lands on 2, an excluded value. */
  lemma IncrementCanLandOnExcluded()
    ensures Increment(0, 3, [2, 1]) == 2
  {
    assert ShiftUp(1, [2, 1]) == ShiftUp(1, [1]) == ShiftUp(2, []);
  }

  /** The shift after the clamp can leave the range: "+" at the maximum 3
      with 3 excluded gives 4. */
  lemma IncrementCanPassMax()
    ensures Increment(3, 3, [3]) == 4
  {
    assert ShiftUp(3, [3]) == ShiftUp(4, []);
  }

  /** The shift after "-" can pass below the minimum: from 2 with 1 then 0
      excluded and minimum 0 the result is -1. */
  lemma DecrementCanPassMin()
    ensures Decrement(2, 0, [1, 0]) == -1
  {
    assert ShiftDown(1, [1, 0]) == ShiftDown(0, [0]) == ShiftDown(-1, []);
  }
}
