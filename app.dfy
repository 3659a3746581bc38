/**
 * The application shell: the current route, a history stack of the routes
 * left behind, the game options chosen on the setup screen, and a global
 * Escape key that always goes back.
 */
module App {
  import opened Base
  import opened Json

  datatype Route = MenuRoute | Setup | Play | ErrorRoute | Settings | Credits

  /** The shell's state cells; the game options are opaque JSON here. */
  datatype AppState = AppState(route: Route, history: seq<Route>, options: Option<Json>)

  const Start: AppState := AppState(MenuRoute, [], None)

  /** `navigate(next)`: push the current route, show `next`. */
  function Navigate(s: AppState, next: Route): (r: AppState)
    ensures r.route == next
    ensures r.history == s.history + [s.route]
    ensures r.options == s.options
  {
    s.(route := next, history := s.history + [s.route])
  }

  /** `goBack()`: pop the last route, or show the menu when there is none. */
  function Back(s: AppState): (r: AppState)
    ensures s.history == [] ==> r.route == MenuRoute && r.history == []
    ensures s.history != [] ==> r.route == s.history[|s.history| - 1] && r.history + [r.route] == s.history
    ensures r.options == s.options
  {
    if s.history == [] then s.(route := MenuRoute, history := [])
    else s.(route := s.history[|s.history| - 1], history := s.history[..|s.history| - 1])
  }

  /** `handlePlay(opts)`: remember the options, then go to the game. */
  function HandlePlay(s: AppState, opts: Json): (r: AppState)
    ensures r.route == Play && r.options == Some(opts)
    ensures r.history == s.history + [s.route]
  {
    Navigate(s.(options := Some(opts)), Play)
  }

  /** The global key listener: only the exact key `Escape` goes back. */
  function OnKey(s: AppState, key: string): (r: (AppState, bool))
    ensures r.1 <==> key == "Escape"
    ensures r.1 ==> r.0 == Back(s)
    ensures !r.1 ==> r.0 == s
  {
    if key == "Escape" then (Back(s), true) else (s, false)
  }

  /** The screen drawn for a state: the game only once options exist. */
  function Screen(s: AppState): (r: Option<Route>)
    ensures r.Some? ==> r.value == s.route
    ensures r.None? <==> s.route == Play && s.options.None?
  {
    if s.route == Play && s.options.None? then None else Some(s.route)
  }

  /** Going somewhere and then back restores the previous route and history. */
  lemma NavigateThenBack(s: AppState, next: Route)
    ensures Back(Navigate(s, next)) == s
  {
    assert (s.history + [s.route])[..|s.history|] == s.history;
  }

  /** Any number of navigations undone by as many backs restores the state. */
  function NavigateAll(s: AppState, routes: seq<Route>): AppState
  {
    if routes == [] then s else Navigate(NavigateAll(s, routes[..|routes| - 1]), routes[|routes| - 1])
  }

  function BackTimes(s: AppState, k: nat): AppState
  {
    if k == 0 then s else Back(BackTimes(s, k - 1))
  }

  lemma {:induction false} NavigationsUndone(s: AppState, routes: seq<Route>)
    ensures |NavigateAll(s, routes).history| == |s.history| + |routes|
    ensures BackTimes(NavigateAll(s, routes), |routes|) == s
  {
    if routes != [] {
      var init := routes[..|routes| - 1];
      var mid := NavigateAll(s, init);
      NavigationsUndone(s, init);
      NavigateThenBack(mid, routes[|routes| - 1]);
      BackUnfold(NavigateAll(s, routes), |routes| - 1);
    }
  }

  /** Backing `k + 1` times is one back followed by `k` more. */
  lemma {:induction false} BackUnfold(s: AppState, k: nat)
    ensures BackTimes(s, k + 1) == BackTimes(Back(s), k)
  {
    if k > 0 {
      BackUnfold(s, k - 1);
    }
  }

  /** Once the history is used up, Escape keeps showing the menu. */
  lemma {:induction false} BackPastStartIsMenu(s: AppState, k: nat)
    requires k > |s.history|
    ensures BackTimes(s, k).route == MenuRoute && BackTimes(s, k).history == []
  {
    var prev := BackTimes(s, k - 1);
    assert BackTimes(s, k) == Back(prev);
    if k - 1 > |s.history| {
      BackPastStartIsMenu(s, k - 1);
    } else {
      BackShrinks(s, k - 1);
    }
    assert prev.history == [];
  }

  /** Each back drops exactly one history entry while there is one. */
  lemma {:induction false} BackShrinks(s: AppState, k: nat)
    requires k <= |s.history|
    ensures |BackTimes(s, k).history| == |s.history| - k
  {
    if k > 0 {
      BackShrinks(s, k - 1);
    }
  }

  /** The shell as a component: its state cells. */
  class Shell {
    var route: Route
    var history: seq<Route>
    var options: Option<Json>

    function State(): AppState
      reads this
    {
      AppState(route, history, options)
    }

    constructor ()
      ensures State() == Start
    {
      route, history, options := MenuRoute, [], None;
    }

    method Set(s: AppState)
      modifies this
      ensures State() == s
    {
      route, history, options := s.route, s.history, s.options;
    }

    method NavigateTo(next: Route)
      modifies this
      ensures State() == Navigate(old(State()), next)
    {
      Set(Navigate(State(), next));
    }

    method GoBack()
      modifies this
      ensures State() == Back(old(State()))
    {
      Set(Back(State()));
    }

    /** The menu's start callback. */
    method HandleStart()
      modifies this
      ensures State() == Navigate(old(State()), Setup)
    {
      NavigateTo(Setup);
    }

    method Play(opts: Json)
      modifies this
      ensures State() == HandlePlay(old(State()), opts)
    {
      Set(HandlePlay(State(), opts));
    }

    method KeyDown(key: string) returns (prevented: bool)
      modifies this
      ensures State() == OnKey(old(State()), key).0
      ensures prevented == OnKey(old(State()), key).1
    {
      var r := OnKey(State(), key);
      Set(r.0);
      prevented := r.1;
    }
  }
}
