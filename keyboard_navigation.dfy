/**
 * The roving-focus hook: a focus index over a list of `length` targets and
 * the input modality that last drove it. Up/Down wrap around, Home/End jump
 * to the ends, Enter/Space activate. A key is ignored while the navigator
 * is disabled or starting, while the modality is `Mouse`, or when the list
 * is empty; hovering is ignored while the modality is `Keyboard`. Nothing
 * in the hook leaves `Mouse` or `Keyboard` again: only the exported setter
 * does.
 */
module KeyboardNavigation {
  import opened Base

  datatype Input = Auto | Mouse | Keyboard

  /** The options the hook is called with on a render. */
  datatype Options = Options(length: int, scheme: Scheme, enabled: bool, starting: bool, hasOnActivate: bool)

  /** The two state cells of the hook. */
  datatype NavState = NavState(focusIndex: int, activeInput: Input)

  /** A key's effect: the next state, the index passed to `onActivate`, and whether the default action was prevented. */
  datatype KeyOutcome = KeyOutcome(next: NavState, activated: Option<int>, prevented: bool)

  /** The guards before any key is looked at. */
  predicate Listening(o: Options, s: NavState)
  {
    o.enabled && !o.starting && s.activeInput != Mouse && o.length > 0
  }

  predicate InRange(o: Options, s: NavState)
  {
    0 <= s.focusIndex < o.length
  }

  /** `handleKey`, with the key as the browser reports it. */
  function OnKey(o: Options, s: NavState, key: string): (r: KeyOutcome)
    ensures !Listening(o, s) ==> r == KeyOutcome(s, None, false)
    ensures r.prevented ==> r.next.activeInput == Keyboard
    ensures !r.prevented ==> r.next == s && r.activated.None?
    ensures r.activated.Some? ==> r.activated.value == s.focusIndex && r.next.focusIndex == s.focusIndex
    ensures Listening(o, s) && InRange(o, s) ==> InRange(o, r.next)
    ensures Listening(o, s) ==>
      (r.prevented <==> (var k := ToLower(key);
        IsUp(o.scheme, k) || IsDown(o.scheme, k) || k == "home" || k == "end" || IsActivate(k)))
  {
    if !Listening(o, s) then KeyOutcome(s, None, false)
    else
      var k := ToLower(key);
      var n := o.length;
      if IsUp(o.scheme, k) then KeyOutcome(NavState(JsRem(s.focusIndex - 1 + n, n), Keyboard), None, true)
      else if IsDown(o.scheme, k) then KeyOutcome(NavState(JsRem(s.focusIndex + 1, n), Keyboard), None, true)
      else if k == "home" then KeyOutcome(NavState(0, Keyboard), None, true)
      else if k == "end" then KeyOutcome(NavState(n - 1, Keyboard), None, true)
      else if IsActivate(k) then
        KeyOutcome(NavState(s.focusIndex, Keyboard), if o.hasOnActivate then Some(s.focusIndex) else None, true)
      else KeyOutcome(s, None, false)
  }

  /** `onMouseEnter(idx)`. */
  function OnMouseEnter(o: Options, s: NavState, idx: int): (r: NavState)
    ensures !o.enabled || s.activeInput == Keyboard ==> r == s
    ensures o.enabled && s.activeInput != Keyboard ==> r == NavState(idx, Mouse)
  {
    if !o.enabled then s
    else if s.activeInput == Keyboard then s
    else NavState(idx, Mouse)
  }

  /** Up moves to the previous target, from the first to the last. */
  lemma UpWraps(o: Options, s: NavState, key: string)
    requires Listening(o, s) && InRange(o, s) && IsUp(o.scheme, ToLower(key))
    ensures OnKey(o, s, key).next.focusIndex == (s.focusIndex - 1 + o.length) % o.length
    ensures OnKey(o, s, key).next.focusIndex == if s.focusIndex == 0 then o.length - 1 else s.focusIndex - 1
    ensures OnKey(o, s, key).prevented && OnKey(o, s, key).activated.None?
  {
    var n := o.length;
    if s.focusIndex == 0 { ModUnique(n - 1, n, 0, n - 1); }
    else { ModUnique(s.focusIndex - 1 + n, n, 1, s.focusIndex - 1); }
  }

  /** Down moves to the next target, from the last to the first. */
  lemma DownWraps(o: Options, s: NavState, key: string)
    requires Listening(o, s) && InRange(o, s) && IsDown(o.scheme, ToLower(key))
    ensures OnKey(o, s, key).next.focusIndex == (s.focusIndex + 1) % o.length
    ensures OnKey(o, s, key).next.focusIndex == if s.focusIndex == o.length - 1 then 0 else s.focusIndex + 1
    ensures OnKey(o, s, key).prevented && OnKey(o, s, key).activated.None?
  {
    var n := o.length;
    if s.focusIndex == n - 1 { ModUnique(n, n, 1, 0); }
    else { ModUnique(s.focusIndex + 1, n, 0, s.focusIndex + 1); }
  }

  /** Home and End, in any letter case, jump to the first and the last target. */
  lemma HomeAndEnd(o: Options, s: NavState, key: string)
    requires Listening(o, s)
    ensures ToLower(key) == "home" ==> OnKey(o, s, key) == KeyOutcome(NavState(0, Keyboard), None, true)
    ensures ToLower(key) == "end" ==> OnKey(o, s, key) == KeyOutcome(NavState(o.length - 1, Keyboard), None, true)
    ensures ToLower("Home") == "home" && ToLower("End") == "end"
  {
    assert ToLower("Home") == "home";
    assert ToLower("End") == "end";
  }

  /** Enter and Space activate the focused target and keep it focused. */
  lemma ActivateKeepsFocus(o: Options, s: NavState, key: string)
    requires Listening(o, s) && o.hasOnActivate
    requires IsActivate(ToLower(key))
    ensures OnKey(o, s, key) == KeyOutcome(NavState(s.focusIndex, Keyboard), Some(s.focusIndex), true)
    ensures ToLower("Enter") == "enter" && ToLower(" ") == " "
  {
    assert ToLower("Enter") == "enter";
    assert ToLower(" ") == " ";
  }

  /**
   * Scheme exclusivity: under WASD the arrow keys do not move the focus,
   * and under the arrow scheme W and S do not.
   */
  lemma SchemeExclusivity(o: Options, s: NavState, key: string)
    requires o.scheme == Wasd ==> ToLower(key) == "arrowup" || ToLower(key) == "arrowdown"
    requires o.scheme == Arrow ==> ToLower(key) == "w" || ToLower(key) == "s"
    ensures OnKey(o, s, key).next.focusIndex == s.focusIndex
  {
  }

  /** Pressing the same key `k` times. */
  function Repeat(o: Options, s: NavState, key: string, k: nat): NavState
  {
    if k == 0 then s else OnKey(o, Repeat(o, s, key, k - 1), key).next
  }

  /** `(a % n + 1) % n == (a + 1) % n` */
  lemma ModSucc(a: int, n: int)
    requires n > 0
    ensures (a % n + 1) % n == (a + 1) % n
  {
    var q, m := a / n, a % n;
    assert a == q * n + m;
    if m + 1 < n {
      ModUnique(a + 1, n, q, m + 1);
      ModUnique(m + 1, n, 0, m + 1);
    } else {
      ModUnique(a + 1, n, q + 1, 0);
      ModUnique(m + 1, n, 1, 0);
    }
  }

  /** `(a % n - 1 + n) % n == (a - 1) % n` */
  lemma ModPred(a: int, n: int)
    requires n > 0
    ensures (a % n - 1 + n) % n == (a - 1) % n
  {
    var q, m := a / n, a % n;
    assert a == q * n + m;
    if m >= 1 {
      ModUnique(a - 1, n, q, m - 1);
      ModUnique(m - 1 + n, n, 1, m - 1);
    } else {
      ModUnique(a - 1, n, q - 1, n - 1);
      ModUnique(m - 1 + n, n, 0, n - 1);
    }
  }

  /** `k` presses of Down from an in-range index move it `k` places, wrapping. */
  lemma {:induction false} RepeatDown(o: Options, s: NavState, key: string, k: nat)
    requires Listening(o, s) && InRange(o, s) && IsDown(o.scheme, ToLower(key))
    ensures Listening(o, Repeat(o, s, key, k)) && InRange(o, Repeat(o, s, key, k))
    ensures Repeat(o, s, key, k).focusIndex == (s.focusIndex + k) % o.length
    ensures k > 0 ==> Repeat(o, s, key, k).activeInput == Keyboard
  {
    if k == 0 {
      ModUnique(s.focusIndex, o.length, 0, s.focusIndex);
    } else {
      RepeatDown(o, s, key, k - 1);
      var prev := Repeat(o, s, key, k - 1);
      DownWraps(o, prev, key);
      ModSucc(s.focusIndex + k - 1, o.length);
    }
  }

  /** `k` presses of Up from an in-range index move it `k` places back, wrapping. */
  lemma {:induction false} RepeatUp(o: Options, s: NavState, key: string, k: nat)
    requires Listening(o, s) && InRange(o, s) && IsUp(o.scheme, ToLower(key))
    ensures Listening(o, Repeat(o, s, key, k)) && InRange(o, Repeat(o, s, key, k))
    ensures Repeat(o, s, key, k).focusIndex == (s.focusIndex - k) % o.length
    ensures k > 0 ==> Repeat(o, s, key, k).activeInput == Keyboard
  {
    if k == 0 {
      ModUnique(s.focusIndex, o.length, 0, s.focusIndex);
    } else {
      RepeatUp(o, s, key, k - 1);
      var prev := Repeat(o, s, key, k - 1);
      UpWraps(o, prev, key);
      ModPred(s.focusIndex - (k - 1), o.length);
    }
  }

  /** Wraparound: `length` presses of Down, or of Up, come back to where they started. */
  lemma FullCircle(o: Options, s: NavState, key: string)
    requires Listening(o, s) && InRange(o, s)
    requires IsDown(o.scheme, ToLower(key)) || IsUp(o.scheme, ToLower(key))
    ensures Repeat(o, s, key, o.length).focusIndex == s.focusIndex
  {
    var n := o.length;
    if IsDown(o.scheme, ToLower(key)) {
      RepeatDown(o, s, key, n);
      ModUnique(s.focusIndex + n, n, 1, s.focusIndex);
    } else {
      RepeatUp(o, s, key, n);
      ModUnique(s.focusIndex - n, n, -1, s.focusIndex);
    }
  }

  /**
   * The hook never re-clamps its index when the list shrinks, but a single
   * Up or Down press brings any non-negative index back into range, since
   * the dividend of the wrap-around remainder is then non-negative.
   */
  lemma IndexRecoversAfterShrink(o: Options, s: NavState, key: string)
    requires Listening(o, s) && s.focusIndex >= 0
    requires IsUp(o.scheme, ToLower(key)) || IsDown(o.scheme, ToLower(key))
    ensures InRange(o, OnKey(o, s, key).next)
    ensures IsUp(o.scheme, ToLower(key)) ==> OnKey(o, s, key).next.focusIndex == (s.focusIndex - 1) % o.length
    ensures IsDown(o.scheme, ToLower(key)) ==> OnKey(o, s, key).next.focusIndex == (s.focusIndex + 1) % o.length
  {
    var n, i := o.length, s.focusIndex;
    if IsUp(o.scheme, ToLower(key)) {
      var q, m := (i - 1) / n, (i - 1) % n;
      assert i - 1 == q * n + m;
      ModUnique(i - 1 + n, n, q + 1, m);
    }
  }

  /** The events that reach the hook. */
  datatype Event = Key(key: string) | Hover(index: int)

  function Step(o: Options, s: NavState, e: Event): NavState
  {
    match e
    case Key(key) => OnKey(o, s, key).next
    case Hover(i) => OnMouseEnter(o, s, i)
  }

  function Run(o: Options, s: NavState, events: seq<Event>): NavState
  {
    if events == [] then s else Step(o, Run(o, s, events[..|events| - 1]), events[|events| - 1])
  }

  function Hovers(events: seq<Event>): (r: seq<Event>)
    ensures forall i :: 0 <= i < |r| ==> r[i].Hover?
  {
    if events == [] then []
    else Hovers(events[..|events| - 1]) + (if events[|events| - 1].Hover? then [events[|events| - 1]] else [])
  }

  function Keys(events: seq<Event>): (r: seq<Event>)
    ensures forall i :: 0 <= i < |r| ==> r[i].Key?
  {
    if events == [] then []
    else Keys(events[..|events| - 1]) + (if events[|events| - 1].Key? then [events[|events| - 1]] else [])
  }

  /**
   * Modality lock, mouse side: once the modality is `Mouse` it stays so
   * and keys are ignored, so only the hovers decide the outcome.
   */
  lemma {:induction false} MouseLock(o: Options, s: NavState, events: seq<Event>)
    requires s.activeInput == Mouse
    ensures Run(o, s, events).activeInput == Mouse
    ensures Run(o, s, events) == Run(o, s, Hovers(events))
  {
    if events != [] {
      var init, last := events[..|events| - 1], events[|events| - 1];
      MouseLock(o, s, init);
      var h := Hovers(events);
      if last.Hover? {
        assert h[..|h| - 1] == Hovers(init);
      } else {
        assert h == Hovers(init);
      }
    }
  }

  /**
   * Modality lock, keyboard side: once the modality is `Keyboard` it stays
   * so and hovers are ignored, so only the keys decide the outcome.
   */
  lemma {:induction false} KeyboardLock(o: Options, s: NavState, events: seq<Event>)
    requires s.activeInput == Keyboard
    ensures Run(o, s, events).activeInput == Keyboard
    ensures Run(o, s, events) == Run(o, s, Keys(events))
  {
    if events != [] {
      var init, last := events[..|events| - 1], events[|events| - 1];
      KeyboardLock(o, s, init);
      var ks := Keys(events);
      if last.Key? {
        assert ks[..|ks| - 1] == Keys(init);
      } else {
        assert ks == Keys(init);
      }
    }
  }

  /**
   * The `forEach` over the element refs: every set ref gets `data-focused`
   * exactly when its slot is `index`; unset refs are skipped.
   */
  method MarkSlot(present: seq<bool>, marks: array<bool>, index: int)
    requires |present| == marks.Length
    modifies marks
    ensures forall i :: 0 <= i < marks.Length ==>
      marks[i] == (if present[i] then i == index else old(marks[i]))
  {
    var i := 0;
    while i < marks.Length
      invariant 0 <= i <= marks.Length
      invariant forall j :: 0 <= j < i ==> marks[j] == (if present[j] then j == index else old(marks[j]))
      invariant forall j :: i <= j < marks.Length ==> marks[j] == old(marks[j])
    {
      if present[i] {
        marks[i] := i == index;
      }
      i := i + 1;
    }
  }

  /** The hook instance: its options of the latest render and its state cells. */
  class Navigator {
    var opts: Options
    var focusIndex: int
    var activeInput: Input

    function State(): NavState
      reads this
    {
      NavState(focusIndex, activeInput)
    }

    constructor (opts: Options, initialIndex: int)
      ensures this.opts == opts && State() == NavState(initialIndex, Auto)
    {
      this.opts := opts;
      focusIndex := initialIndex;
      activeInput := Auto;
    }

    /** A re-render with new options keeps both state cells; the index is not re-clamped. */
    method Rerender(o: Options)
      modifies this
      ensures opts == o && State() == old(State())
    {
      opts := o;
    }

    method HandleKey(key: string) returns (activated: Option<int>, prevented: bool)
      modifies this
      ensures opts == old(opts)
      ensures State() == OnKey(opts, old(State()), key).next
      ensures activated == OnKey(opts, old(State()), key).activated
      ensures prevented == OnKey(opts, old(State()), key).prevented
    {
      var r := OnKey(opts, State(), key);
      focusIndex, activeInput := r.next.focusIndex, r.next.activeInput;
      activated, prevented := r.activated, r.prevented;
    }

    method MouseEnter(idx: int)
      modifies this
      ensures opts == old(opts)
      ensures State() == OnMouseEnter(opts, old(State()), idx)
    {
      var r := OnMouseEnter(opts, State(), idx);
      focusIndex, activeInput := r.focusIndex, r.activeInput;
    }

    /** The exported `setFocusIndex`. */
    method SetFocusIndex(i: int)
      modifies this
      ensures opts == old(opts) && State() == NavState(i, old(activeInput))
    {
      focusIndex := i;
    }

    /** The exported `setActiveInput`, the only way out of `Mouse` or `Keyboard`. */
    method SetActiveInput(m: Input)
      modifies this
      ensures opts == old(opts) && State() == NavState(old(focusIndex), m)
    {
      activeInput := m;
    }

    /**
     * The effect run when the index changes: focus the referenced element
     * at the index and mark exactly the present elements' slot at the index
     * with `data-focused`. `present[i]` says whether ref `i` is set;
     * `marks[i]` is the attribute on that element.
     */
    method MarkFocused(present: seq<bool>, marks: array<bool>) returns (focused: Option<int>)
      requires |present| == marks.Length
      modifies marks
      ensures opts.length <= 0 ==> marks[..] == old(marks[..]) && focused.None?
      ensures opts.length > 0 ==> forall i :: 0 <= i < marks.Length ==>
        marks[i] == (if present[i] then i == focusIndex else old(marks[i]))
      ensures focused.Some? <==> opts.length > 0 && 0 <= focusIndex < |present| && present[focusIndex]
      ensures focused.Some? ==> focused.value == focusIndex
    {
      if opts.length <= 0 {
        return None;
      }
      focused := if 0 <= focusIndex < |present| && present[focusIndex] then Some(focusIndex) else None;
      MarkSlot(present, marks, focusIndex);
    }
  }
}
