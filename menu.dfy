/**
 * The main menu: three buttons (start, settings, credits) with its own
 * copy of the keyboard navigation over a fixed length of three, a one-shot
 * `starting` latch, hover focusing and the flags it takes from the
 * configuration when it mounts and on every change notification.
 */
module Menu {
  import opened Base
  import opened Json
  import opened Config
  import KeyboardNavigation

  const Len: int := 3

  /** A button index. */
  type Button = k: int | 0 <= k < 3

  /** What a button does: start the game, open the settings, open the credits. */
  datatype Action = StartGame | OpenSettings | OpenCredits

  datatype MenuState = MenuState(
    starting: bool,
    keyboardEnabled: bool,
    mouseEnabled: bool,
    focusIndex: int,
    scheme: Scheme)

  datatype Outcome = Outcome(next: MenuState, action: Option<Action>, prevented: bool)

  predicate Valid(s: MenuState)
  {
    0 <= s.focusIndex < Len
  }

  /** The state the menu mounts with, before its config effect runs. */
  const Initial: MenuState := MenuState(false, true, true, 0, Arrow)

  /** `handleStart`: the first call starts the game, later calls do nothing. */
  function HandleStart(s: MenuState): (r: Outcome)
    ensures r.next.starting
    ensures r.action.Some? <==> !s.starting
    ensures r.action.Some? ==> r.action.value == StartGame
    ensures r.next == s.(starting := true)
  {
    if s.starting then Outcome(s, None, false)
    else Outcome(s.(starting := true), Some(StartGame), false)
  }

  /** The action of the button at an index, as Enter/Space triggers it. */
  function Activate(s: MenuState): (r: Outcome)
    requires !s.starting
    ensures r.prevented
    ensures s.focusIndex == 0 <==> r.action == Some(StartGame)
    ensures s.focusIndex == 1 <==> r.action == Some(OpenSettings)
    ensures s.focusIndex == 2 <==> r.action == Some(OpenCredits)
    ensures r.next.focusIndex == s.focusIndex
  {
    if s.focusIndex == 0 then HandleStart(s).(prevented := true)
    else if s.focusIndex == 1 then Outcome(s, Some(OpenSettings), true)
    else if s.focusIndex == 2 then Outcome(s, Some(OpenCredits), true)
    else Outcome(s, None, true)
  }

  /** `handleKey` of the menu. */
  function OnKey(s: MenuState, key: string): (r: Outcome)
    ensures !s.keyboardEnabled || s.starting ==> r == Outcome(s, None, false)
    ensures Valid(s) ==> Valid(r.next)
    ensures r.action.Some? ==> r.next.focusIndex == s.focusIndex && !s.starting
    ensures r.action == Some(StartGame) ==> r.next.starting
    ensures r.action != Some(StartGame) ==> r.next.starting == s.starting
    ensures r.next.keyboardEnabled == s.keyboardEnabled && r.next.mouseEnabled == s.mouseEnabled
    ensures r.next.scheme == s.scheme
  {
    if !s.keyboardEnabled || s.starting then Outcome(s, None, false)
    else
      var k := ToLower(key);
      if IsUp(s.scheme, k) then Outcome(s.(focusIndex := JsRem(s.focusIndex - 1 + Len, Len)), None, true)
      else if IsDown(s.scheme, k) then Outcome(s.(focusIndex := JsRem(s.focusIndex + 1, Len)), None, true)
      else if k == "home" then Outcome(s.(focusIndex := 0), None, true)
      else if k == "end" then Outcome(s.(focusIndex := Len - 1), None, true)
      else if IsActivate(k) then Activate(s)
      else Outcome(s, None, false)
  }

  /** Up and Down cycle through the three buttons. */
  lemma UpDownCycle(s: MenuState, key: string)
    requires Valid(s) && s.keyboardEnabled && !s.starting
    ensures IsUp(s.scheme, ToLower(key)) ==>
      OnKey(s, key).next.focusIndex == (s.focusIndex + 2) % 3
    ensures IsDown(s.scheme, ToLower(key)) ==>
      OnKey(s, key).next.focusIndex == (s.focusIndex + 1) % 3
  {
  }

  /** Home focuses the start button and End the credits button. */
  lemma MenuHomeAndEnd(s: MenuState)
    requires s.keyboardEnabled && !s.starting
    ensures OnKey(s, "Home").next.focusIndex == 0
    ensures OnKey(s, "End").next.focusIndex == 2
  {
    assert ToLower("Home") == "home";
    assert ToLower("End") == "end";
  }

  /** Enter on a button triggers exactly that button's action. */
  lemma EnterTriggersFocused(s: MenuState)
    requires Valid(s) && s.keyboardEnabled && !s.starting
    ensures OnKey(s, "Enter").action ==
      Some(if s.focusIndex == 0 then StartGame else if s.focusIndex == 1 then OpenSettings else OpenCredits)
  {
    assert ToLower("Enter") == "enter";
  }

  /** Hovering a button focuses it only while mouse navigation is on. */
  function OnHover(s: MenuState, k: Button): (r: MenuState)
    ensures s.mouseEnabled ==> r.focusIndex == k
    ensures !s.mouseEnabled ==> r == s
    ensures r.starting == s.starting
  {
    if s.mouseEnabled then s.(focusIndex := k) else s
  }

  /** The flags read from a config at mount and on each change notification. */
  function OnConfig(s: MenuState, cfg: Config): (r: MenuState)
    ensures r.keyboardEnabled <==> Setting(cfg, "keyboardNavigation") != Some(JBool(false))
    ensures r.mouseEnabled <==> Setting(cfg, "mouseNavigation") != Some(JBool(false))
    ensures r.scheme == Wasd <==> Setting(cfg, "controlScheme") == Some(JStr("wasd"))
    ensures r.focusIndex == s.focusIndex && r.starting == s.starting
  {
    s.(keyboardEnabled := KeyboardNavigationOn(cfg),
       mouseEnabled := MouseNavigationOn(cfg),
       scheme := ControlSchemeOf(cfg))
  }

  /** The events the menu reacts to. */
  datatype Event =
    | Key(key: string)
    | Hover(button: Button)
    | ClickStart
    | ClickSettings
    | ClickCredits
    | ConfigChanged(cfg: Config)

  function Step(s: MenuState, e: Event): Outcome
  {
    match e
    case Key(key) => OnKey(s, key)
    case Hover(k) => Outcome(OnHover(s, k), None, false)
    case ClickStart => HandleStart(s)
    case ClickSettings => Outcome(s, Some(OpenSettings), false)
    case ClickCredits => Outcome(s, Some(OpenCredits), false)
    case ConfigChanged(cfg) => Outcome(OnConfig(s, cfg), None, false)
  }

  /** The state after a run of events and the actions it triggered, in order. */
  function Run(s: MenuState, events: seq<Event>): (MenuState, seq<Action>)
  {
    if events == [] then (s, [])
    else
      var (mid, acts) := Run(s, events[..|events| - 1]);
      var o := Step(mid, events[|events| - 1]);
      (o.next, acts + (if o.action.Some? then [o.action.value] else []))
  }

  function CountStarts(acts: seq<Action>): nat
  {
    if acts == [] then 0
    else CountStarts(acts[..|acts| - 1]) + (if acts[|acts| - 1] == StartGame then 1 else 0)
  }

  /** One event keeps the focus on a button, never starts twice and never clears the latch. */
  lemma StepKeepsLatch(s: MenuState, e: Event)
    requires Valid(s)
    ensures Valid(Step(s, e).next)
    ensures s.starting ==> Step(s, e).next.starting && Step(s, e).action != Some(StartGame)
    ensures Step(s, e).action == Some(StartGame) ==> Step(s, e).next.starting
  {
  }

  lemma CountStartsAppend(acts: seq<Action>, a: Action)
    ensures CountStarts(acts + [a]) == CountStarts(acts) + (if a == StartGame then 1 else 0)
  {
    assert (acts + [a])[..|acts|] == acts;
  }

  /**
   * The latch: whatever happens, the game is started at most once, never
   * when the menu was already starting, and once starting the menu stays
   * starting. Every run also keeps the focus on one of the three buttons.
   */
  lemma {:induction false} StartsAtMostOnce(s: MenuState, events: seq<Event>)
    requires Valid(s)
    ensures Valid(Run(s, events).0)
    ensures s.starting ==> Run(s, events).0.starting
    ensures CountStarts(Run(s, events).1) <= 1
    ensures s.starting ==> CountStarts(Run(s, events).1) == 0
    ensures CountStarts(Run(s, events).1) == 1 ==> Run(s, events).0.starting
  {
    if events != [] {
      var init := events[..|events| - 1];
      StartsAtMostOnce(s, init);
      var (mid, acts) := Run(s, init);
      var e := events[|events| - 1];
      StepKeepsLatch(mid, e);
      var o := Step(mid, e);
      assert Run(s, events) == (o.next, acts + (if o.action.Some? then [o.action.value] else []));
      if o.action.Some? {
        CountStartsAppend(acts, o.action.value);
      } else {
        assert acts + [] == acts;
      }
    }
  }

  /** The menu screen: its state cells and the button refs' `data-focused` marks. */
  class MenuScreen {
    var starting: bool
    var keyboardEnabled: bool
    var mouseEnabled: bool
    var focusIndex: int
    var scheme: Scheme

    function State(): MenuState
      reads this
    {
      MenuState(starting, keyboardEnabled, mouseEnabled, focusIndex, scheme)
    }

    method Set(s: MenuState)
      modifies this
      ensures State() == s
    {
      starting, keyboardEnabled, mouseEnabled, focusIndex, scheme :=
        s.starting, s.keyboardEnabled, s.mouseEnabled, s.focusIndex, s.scheme;
    }

    /** Mounting: the initial state, then the flags of the loaded config. */
    constructor (cfg: Config)
      ensures State() == OnConfig(Initial, cfg)
    {
      starting, keyboardEnabled, mouseEnabled, focusIndex, scheme := false, true, true, 0, Arrow;
      new;
      Set(OnConfig(Initial, cfg));
    }

    method HandleKey(key: string) returns (action: Option<Action>, prevented: bool)
      modifies this
      ensures State() == OnKey(old(State()), key).next
      ensures action == OnKey(old(State()), key).action
      ensures prevented == OnKey(old(State()), key).prevented
    {
      var o := OnKey(State(), key);
      Set(o.next);
      action, prevented := o.action, o.prevented;
    }

    /** `handleStart`, as the start button's click runs it. */
    method Start() returns (started: bool)
      modifies this
      ensures State() == HandleStart(old(State())).next
      ensures started == HandleStart(old(State())).action.Some?
    {
      var o := HandleStart(State());
      Set(o.next);
      started := o.action.Some?;
    }

    method MouseEnter(k: Button)
      modifies this
      ensures State() == OnHover(old(State()), k)
    {
      Set(OnHover(State(), k));
    }

    /** The `pacman.config.changed` listener. */
    method ConfigChanged(detail: Config)
      modifies this
      ensures State() == OnConfig(old(State()), detail)
    {
      Set(OnConfig(State(), detail));
    }

    /** The effect marking the focused button; every ref slot is visited. */
    method MarkFocused(present: seq<bool>, marks: array<bool>)
      requires |present| == marks.Length
      modifies marks
      ensures forall i :: 0 <= i < marks.Length ==>
        marks[i] == (if present[i] then i == focusIndex else old(marks[i]))
    {
      KeyboardNavigation.MarkSlot(present, marks, focusIndex);
    }
  }
}
