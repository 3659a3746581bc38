/**
 * The number spinner: a value between 0 and 99 that the minus and plus
 * buttons, or the up and down keys of the control scheme, move by one. The
 * spinner owns no state; it hands the next value to its `onChange`
 * callback, or nothing when it is disabled.
 */
module NumberInput {
  import opened Base

  const Min: int := 0
  const Max: int := 99

  /** `dec()`: the value handed to `onChange`, if any. */
  function Dec(value: int, disabled: bool): (r: Option<int>)
    ensures r.None? <==> disabled
    ensures r.Some? ==> r.value >= Min
    ensures r.Some? && value > Min ==> r.value == value - 1
    ensures r.Some? && value <= Min ==> r.value == Min
  {
    if disabled then None
    else if value - 1 < Min then Some(Min) else Some(value - 1)
  }

  /** `inc()`: the value handed to `onChange`, if any. */
  function Inc(value: int, disabled: bool): (r: Option<int>)
    ensures r.None? <==> disabled
    ensures r.Some? ==> r.value <= Max
    ensures r.Some? && value < Max ==> r.value == value + 1
    ensures r.Some? && value >= Max ==> r.value == Max
  {
    if disabled then None
    else if value + 1 > Max then Some(Max) else Some(value + 1)
  }

  /** What a key press does: the value emitted and whether the default was prevented. */
  datatype KeyResult = KeyResult(emitted: Option<int>, prevented: bool)

  /** `onKey`, given the key text (`''` when the event has none). */
  function OnKey(scheme: Scheme, key: string, value: int, disabled: bool): (r: KeyResult)
    ensures IsUp(scheme, ToLower(key)) ==> r == KeyResult(Inc(value, disabled), true)
    ensures IsDown(scheme, ToLower(key)) ==> r == KeyResult(Dec(value, disabled), true)
    ensures !IsUp(scheme, ToLower(key)) && !IsDown(scheme, ToLower(key)) ==> r == KeyResult(None, false)
  {
    var k := ToLower(key);
    if k == UpKey(scheme) then KeyResult(Inc(value, disabled), true)
    else if k == DownKey(scheme) then KeyResult(Dec(value, disabled), true)
    else KeyResult(None, false)
  }

  predicate InBounds(v: int)
  {
    Min <= v <= Max
  }

  /** Starting in range, every value the spinner emits is in range. */
  lemma EmitsInBounds(scheme: Scheme, key: string, value: int, disabled: bool)
    requires InBounds(value)
    ensures Dec(value, disabled).Some? ==> InBounds(Dec(value, disabled).value)
    ensures Inc(value, disabled).Some? ==> InBounds(Inc(value, disabled).value)
    ensures OnKey(scheme, key, value, disabled).emitted.Some? ==>
      InBounds(OnKey(scheme, key, value, disabled).emitted.value)
  {
  }

  /** Plus then minus gives the value back below the top; minus then plus above the bottom. */
  lemma IncThenDec(value: int)
    ensures Min <= value < Max ==> Dec(Inc(value, false).value, false) == Some(value)
    ensures Min < value <= Max ==> Inc(Dec(value, false).value, false) == Some(value)
  {
  }

  /** Under WASD, `w`/`W` increments and `s`/`S` decrements; under arrows, the arrow keys. */
  lemma SchemeKeys(value: int, disabled: bool)
    ensures OnKey(Wasd, "w", value, disabled).emitted == Inc(value, disabled)
    ensures OnKey(Wasd, "S", value, disabled).emitted == Dec(value, disabled)
    ensures OnKey(Arrow, "ArrowUp", value, disabled).emitted == Inc(value, disabled)
    ensures OnKey(Arrow, "ArrowDown", value, disabled).emitted == Dec(value, disabled)
    ensures OnKey(Arrow, "w", value, disabled) == KeyResult(None, false)
    ensures OnKey(Wasd, "ArrowUp", value, disabled) == KeyResult(None, false)
  {
    assert ToLower("S") == "s";
    assert ToLower("ArrowUp") == "arrowup";
    assert ToLower("ArrowDown") == "arrowdown";
  }

  /** Pressing plus `k` times, feeding each emitted value back in. */
  function IncTimes(value: int, k: nat): int
  {
    if k == 0 then value else Inc(IncTimes(value, k - 1), false).value
  }

  /** `k` presses of plus from an in-range value reach `min(99, value + k)`. */
  lemma {:induction false} IncTimesSaturates(value: int, k: nat)
    requires InBounds(value)
    ensures IncTimes(value, k) == if value + k > Max then Max else value + k
  {
    if k > 0 {
      IncTimesSaturates(value, k - 1);
    }
  }
}
