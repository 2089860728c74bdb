/**
 * The bounded integer stepper of the settings form (src/components/NumberInput.tsx).
 * Each handler either hands one new value to the owner's `onChange` (`Some`)
 * or does nothing (`None`).
 */
module NumberInput {
  import opened Wrappers
  import opened Decimal

  /** The bounds used when the owner passes none. */
  const DefaultMin: int := 1
  const DefaultMax: int := 999

  /** The '+' button. */
  function Increment(value: int, max: int): Option<int> {
    if value < max then Some(value + 1) else None
  }

  /** The '-' button. */
  function Decrement(value: int, min: int): Option<int> {
    if value > min then Some(value - 1) else None
  }

  /** Typing into the field: the text is accepted only if it reads as an integer within the bounds. */
  function HandleChange(text: string, min: int, max: int): Option<int> {
    match ParseInt(text)
    case Some(n) => if min <= n && n <= max then Some(n) else None
    case None => None
  }

  /** Whether the '+' and '-' buttons are greyed out. */
  predicate IncrementDisabled(value: int, max: int) {
    value >= max
  }

  predicate DecrementDisabled(value: int, min: int) {
    value <= min
  }

  /**
   * '+' hands on exactly the next value, and does so exactly when its button
   * is enabled; likewise '-' with the previous value.
   */
  lemma StepperEmitsNeighbour(value: int, min: int, max: int)
    ensures Increment(value, max).Some? <==> !IncrementDisabled(value, max)
    ensures Increment(value, max).Some? ==> Increment(value, max).value == value + 1
    ensures Decrement(value, min).Some? <==> !DecrementDisabled(value, min)
    ensures Decrement(value, min).Some? ==> Decrement(value, min).value == value - 1
  {
  }

  /** A value within the bounds stays within them after either button. */
  lemma StepperStaysInBounds(value: int, min: int, max: int)
    requires min <= value <= max
    ensures Increment(value, max).Some? ==> min <= Increment(value, max).value <= max
    ensures Decrement(value, min).Some? ==> min <= Decrement(value, min).value <= max
  {
  }

  /** '-' undoes '+', and '+' undoes '-', for values within the bounds. */
  lemma StepperInverse(value: int, min: int, max: int)
    requires min <= value <= max
    ensures Increment(value, max).Some? ==> Decrement(Increment(value, max).value, min) == Some(value)
    ensures Decrement(value, min).Some? ==> Increment(Decrement(value, min).value, max) == Some(value)
  {
  }

  /** Typed text is handed on only as the in-range integer it reads as; unreadable or out-of-range text is dropped. */
  lemma HandleChangeAccepts(text: string, min: int, max: int)
    ensures HandleChange(text, min, max).Some? <==>
      (ParseInt(text).Some? && min <= ParseInt(text).value <= max)
    ensures HandleChange(text, min, max).Some? ==> HandleChange(text, min, max) == ParseInt(text)
  {
  }

  /** Typing the decimal text of an in-range value hands on that value; of an out-of-range value, nothing. */
  lemma HandleChangeOfIntToString(n: int, min: int, max: int)
    ensures min <= n <= max ==> HandleChange(IntToString(n), min, max) == Some(n)
    ensures !(min <= n <= max) ==> HandleChange(IntToString(n), min, max) == None
  {
    ParseIntOfIntToString(n);
  }

  /** Whatever any of the three handlers hands on lies within the bounds, provided the shown value does. */
  lemma HandlersStayInBounds(value: int, text: string, min: int, max: int, emitted: Option<int>)
    requires min <= value <= max
    requires emitted == Increment(value, max) || emitted == Decrement(value, min) || emitted == HandleChange(text, min, max)
    ensures emitted.Some? ==> min <= emitted.value <= max
  {
    StepperStaysInBounds(value, min, max);
    HandleChangeAccepts(text, min, max);
  }
}
