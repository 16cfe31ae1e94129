/** The numeric input boxes of the calculator page and the arithmetic the page
    applies to a single box: reading it, rounding a rate for display, and the
    +/- stepper buttons. */
module Entries {
  import opened Wrappers

  /** The content of one input box: empty text, or non-empty text whose parse
      as a decimal number either failed or produced a number. Nothing but this
      distinction is observed by the calculator, so the text itself is not kept. */
  datatype Entry = Empty | Typed(parsed: Option<real>)

  /** The box after the page writes the number `x` into it. */
  function Holding(x: real): Entry
  {
    Typed(Some(x))
  }

  /** The number a box stands for: its parse, or 0 when the box is empty or its
      text is not a number. */
  function SafeGetNumber(e: Entry): (n: real)
    ensures n != 0.0 ==> e == Holding(n)
    ensures e.Typed? && e.parsed.Some? ==> n == e.parsed.value
  {
    match e
    case Empty => 0.0
    case Typed(None) => 0.0
    case Typed(Some(v)) => v
  }

  /** `x` is a whole number of hundredths, i.e. it is shown exactly with two decimals. */
  predicate IsHundredths(x: real)
  {
    (x * 100.0).Floor as real == x * 100.0
  }

  /** The number shown in a rate box: `x` rounded to the nearest hundredth, halves
      going towards positive infinity as `Math.round` does. */
  function RoundToTwoDecimals(x: real): (r: real)
    ensures IsHundredths(r)
    ensures x - 0.005 < r <= x + 0.005
  {
    var k := (x * 100.0 + 0.5).Floor;
    assert (k as real / 100.0) * 100.0 == k as real;
    k as real / 100.0
  }

  /** Rounding leaves a number that is already in hundredths alone. */
  lemma RoundFixesHundredths(x: real)
    requires IsHundredths(x)
    ensures RoundToTwoDecimals(x) == x
  {
    var n := (x * 100.0).Floor;
    assert x * 100.0 + 0.5 == n as real + 0.5;
    assert (x * 100.0 + 0.5).Floor == n;
  }

  /** Rounding twice is rounding once. */
  lemma RoundIsIdempotent(x: real)
    ensures RoundToTwoDecimals(RoundToTwoDecimals(x)) == RoundToTwoDecimals(x)
  {
    RoundFixesHundredths(RoundToTwoDecimals(x));
  }

  /** Rounding never reverses the order of two numbers. */
  lemma RoundIsMonotone(x: real, y: real)
    requires x <= y
    ensures RoundToTwoDecimals(x) <= RoundToTwoDecimals(y)
  {
    var i := (x * 100.0 + 0.5).Floor;
    var j := (y * 100.0 + 0.5).Floor;
    assert i as real <= x * 100.0 + 0.5 <= y * 100.0 + 0.5 < j as real + 1.0;
    assert i <= j;
  }

  /** Which stepper button was pressed. */
  datatype Direction = Increment | Decrement

  /** The number a stepper button writes back: one more, or one less but never
      below zero. */
  function Stepped(v: real, d: Direction): (r: real)
    ensures d == Increment ==> r == v + 1.0
    ensures d == Decrement ==> r >= 0.0 && r >= v - 1.0 && (r == 0.0 || r == v - 1.0)
  {
    match d
    case Increment => v + 1.0
    case Decrement => if v - 1.0 > 0.0 then v - 1.0 else 0.0
  }

  /** The box after a stepper button: its number (0 if unreadable) stepped and
      written back. */
  function StepEntry(e: Entry, d: Direction): (e': Entry)
    ensures e'.Typed? && e'.parsed.Some?
    ensures SafeGetNumber(e') == Stepped(SafeGetNumber(e), d)
  {
    Holding(Stepped(SafeGetNumber(e), d))
  }

  /** A decrement undoes an increment of any non-negative number. */
  lemma DecrementUndoesIncrement(v: real)
    requires v >= 0.0
    ensures Stepped(Stepped(v, Increment), Decrement) == v
  {
  }

  /** An increment undoes a decrement that did not hit the floor at zero. */
  lemma IncrementUndoesDecrement(v: real)
    requires v >= 1.0
    ensures Stepped(Stepped(v, Decrement), Increment) == v
  {
  }
}
