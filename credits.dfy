/**
 * The credits screen's keyboard navigation. Unlike the menu it keeps an
 * unbounded focus index, moved by one per key, and reduces it into the list
 * of focusable elements only when it uses it: `((i % n) + n) % n` with
 * JavaScript's remainder. The focusable elements are looked up afresh each
 * time among the screen's elements.
 */
module Credits {
  import opened Base
  import opened Json
  import opened Config

  /** An element under the screen's stage, with what the selector and filter look at. */
  datatype DomNode = DomNode(tag: string, hasHref: bool, tabindex: Option<string>, disabled: bool)

  /** `a[href], button, [tabindex]:not([tabindex="-1"])` */
  predicate MatchesSelector(n: DomNode)
  {
    (n.tag == "a" && n.hasHref) || n.tag == "button" || (n.tabindex.Some? && n.tabindex.value != "-1")
  }

  predicate Eligible(n: DomNode)
  {
    MatchesSelector(n) && !n.disabled
  }

  /** The positions of the eligible elements among the first `k`, in document order. */
  function FocusablePrefix(nodes: seq<DomNode>, k: nat): (f: seq<nat>)
    requires k <= |nodes|
    ensures forall j :: 0 <= j < |f| ==> f[j] < k && Eligible(nodes[f[j]])
    ensures forall i :: 0 <= i < k && Eligible(nodes[i]) ==> i in f
    ensures forall a, b :: 0 <= a < b < |f| ==> f[a] < f[b]
  {
    if k == 0 then []
    else FocusablePrefix(nodes, k - 1) + (if Eligible(nodes[k - 1]) then [k - 1] else [])
  }

  /**
   * `getFocusable()`: nothing while the stage is not mounted; otherwise the
   * matching elements that have no `disabled` attribute, in document order.
   */
  function GetFocusable(nodes: seq<DomNode>, mounted: bool): (f: seq<nat>)
    ensures !mounted ==> f == []
    ensures forall j :: 0 <= j < |f| ==> f[j] < |nodes| && Eligible(nodes[f[j]])
    ensures mounted ==> forall i :: 0 <= i < |nodes| && Eligible(nodes[i]) ==> i in f
    ensures forall a, b :: 0 <= a < b < |f| ==> f[a] < f[b]
  {
    if mounted then FocusablePrefix(nodes, |nodes|) else []
  }

  /** A disabled element is never focusable. */
  lemma DisabledNeverFocusable(nodes: seq<DomNode>, mounted: bool, i: nat)
    requires i < |nodes| && nodes[i].disabled
    ensures i !in GetFocusable(nodes, mounted)
  {
  }

  /** `((i % n) + n) % n` */
  function Normalize(i: int, n: int): int
    requires n > 0
  {
    JsRem(JsRem(i, n) + n, n)
  }

  /**
   * The normalised index lies in `[0, n)` and is the Euclidean residue of
   * `i`, so it is congruent to `i` modulo `n`, for negative `i` too.
   */
  lemma NormalizeIsResidue(i: int, n: int)
    requires n > 0
    ensures 0 <= Normalize(i, n) < n
    ensures Normalize(i, n) == i % n
  {
    JsRemAgainstEuclid(i, n);
    var r := JsRem(i, n);
    if r == 0 {
      ModUnique(n, n, 1, 0);
    } else if r > 0 {
      ModUnique(r + n, n, 1, r);
    } else {
      ModUnique(r + n, n, 0, r + n);
    }
  }

  /** Moving up from the first element wraps to the last one. */
  lemma {:induction false} UpFromFirstWraps(n: int)
    requires n > 0
    ensures Normalize(-1, n) == n - 1
  {
    NormalizeIsResidue(-1, n);
    ModUnique(-1, n, -1, n - 1);
  }

  datatype CreditsState = CreditsState(keyboardEnabled: bool, scheme: Scheme, focusIndex: int)

  /**
   * A key's effect given how many elements are focusable: the next state,
   * the index handed to `focusByIndex`, the focusable position clicked, and
   * whether the default action was prevented.
   */
  datatype KeyOutcome = KeyOutcome(next: CreditsState, focusBy: Option<int>, click: Option<nat>, prevented: bool)

  /** `handleKey`; with keyboard navigation off no handler is installed. */
  function OnKey(s: CreditsState, key: string, count: nat): (r: KeyOutcome)
    ensures !s.keyboardEnabled ==> r == KeyOutcome(s, None, None, false)
    ensures r.next.focusIndex == s.focusIndex
         || r.next.focusIndex == s.focusIndex - 1
         || r.next.focusIndex == s.focusIndex + 1
    ensures r.next.focusIndex != s.focusIndex ==> r.focusBy == Some(r.next.focusIndex)
    ensures r.click.Some? ==> count > 0 && r.click.value < count && r.next == s
    ensures r.next.keyboardEnabled == s.keyboardEnabled && r.next.scheme == s.scheme
  {
    if !s.keyboardEnabled then KeyOutcome(s, None, None, false)
    else
      var k := ToLower(key);
      if IsUp(s.scheme, k) then
        KeyOutcome(s.(focusIndex := s.focusIndex - 1), Some(s.focusIndex - 1), None, true)
      else if IsDown(s.scheme, k) then
        KeyOutcome(s.(focusIndex := s.focusIndex + 1), Some(s.focusIndex + 1), None, true)
      else if IsActivate(k) then
        if count == 0 then KeyOutcome(s, None, None, true)
        else
          NormalizeIsResidue(s.focusIndex, count);
          KeyOutcome(s, None, Some(Normalize(s.focusIndex, count)), true)
      else KeyOutcome(s, None, None, false)
  }

  /** Up and Down move the stored index by exactly one, without wrapping it. */
  lemma StoredIndexSteps(s: CreditsState, key: string, count: nat)
    requires s.keyboardEnabled
    ensures IsUp(s.scheme, ToLower(key)) ==> OnKey(s, key, count).next.focusIndex == s.focusIndex - 1
    ensures IsDown(s.scheme, ToLower(key)) ==> OnKey(s, key, count).next.focusIndex == s.focusIndex + 1
  {
  }

  /** Enter/Space click the element at the normalised stored index. */
  lemma ActivateClicksFocused(s: CreditsState, key: string, count: nat)
    requires s.keyboardEnabled && count > 0
    requires !IsUp(s.scheme, ToLower(key)) && !IsDown(s.scheme, ToLower(key)) && IsActivate(ToLower(key))
    ensures OnKey(s, key, count).click == Some(s.focusIndex % count)
    ensures OnKey(s, key, count).next == s && OnKey(s, key, count).prevented
  {
    NormalizeIsResidue(s.focusIndex, count);
  }

  /** Pressing the same key `k` times. */
  function Repeat(s: CreditsState, key: string, count: nat, k: nat): CreditsState
  {
    if k == 0 then s else OnKey(Repeat(s, key, count, k - 1), key, count).next
  }

  /**
   * `k` presses of Down add `k` to the stored index, which is unbounded;
   * the element focused is that index's residue.
   */
  lemma {:induction false} DownPressesAccumulate(s: CreditsState, key: string, count: nat, k: nat)
    requires s.keyboardEnabled && IsDown(s.scheme, ToLower(key))
    ensures Repeat(s, key, count, k) == s.(focusIndex := s.focusIndex + k)
  {
    if k > 0 {
      DownPressesAccumulate(s, key, count, k - 1);
    }
  }

  /** `this.settings?.keyboardNavigation` and the scheme, read from a config. */
  function OnConfig(s: CreditsState, cfg: Config): (r: CreditsState)
    ensures r.keyboardEnabled <==> Setting(cfg, "keyboardNavigation") != Some(JBool(false))
    ensures r.scheme == Wasd <==> Setting(cfg, "controlScheme") == Some(JStr("wasd"))
    ensures r.focusIndex == s.focusIndex
  {
    s.(keyboardEnabled := KeyboardNavigationOn(cfg), scheme := ControlSchemeOf(cfg))
  }

  /**
   * The `forEach` of `focusByIndex`: among the elements at the positions
   * `f`, only the one at `f[idx]` is marked; the others keep their mark.
   */
  method MarkOnly(marks: array<bool>, f: seq<nat>, idx: nat)
    requires forall j :: 0 <= j < |f| ==> f[j] < marks.Length
    requires forall a, b :: 0 <= a < b < |f| ==> f[a] < f[b]
    modifies marks
    ensures forall p :: 0 <= p < |f| ==> marks[f[p]] == (p == idx)
    ensures forall m :: 0 <= m < marks.Length && m !in f ==> marks[m] == old(marks[m])
  {
    var j := 0;
    while j < |f|
      invariant 0 <= j <= |f|
      invariant forall p :: 0 <= p < j ==> marks[f[p]] == (p == idx)
      invariant forall p :: j <= p < |f| ==> marks[f[p]] == old(marks[f[p]])
      invariant forall m :: 0 <= m < marks.Length && m !in f ==> marks[m] == old(marks[m])
    {
      marks[f[j]] := j == idx;
      j := j + 1;
    }
  }

  /** The credits screen with the elements under its stage. */
  class CreditsPage {
    var keyboardEnabled: bool
    var scheme: Scheme
    var focusIndex: int
    /** The elements under the stage, in document order. */
    const nodes: seq<DomNode>
    /** Whether the stage ref is set. */
    var mounted: bool
    /** `data-focused` per element. */
    const marks: array<bool>
    /** The element that has DOM focus, if this screen moved it. */
    var domFocus: Option<nat>
    /** The elements clicked by Enter/Space, in order. */
    var clicks: seq<nat>

    ghost predicate Valid()
      reads this
    {
      marks.Length == |nodes|
    }

    function State(): CreditsState
      reads this
    {
      CreditsState(keyboardEnabled, scheme, focusIndex)
    }

    constructor (nodes: seq<DomNode>, cfg: Config)
      ensures Valid() && fresh(marks)
      ensures this.nodes == nodes && mounted && domFocus.None? && clicks == []
      ensures State() == OnConfig(CreditsState(true, Arrow, 0), cfg)
      ensures forall m :: 0 <= m < marks.Length ==> !marks[m]
    {
      this.nodes := nodes;
      marks := new bool[|nodes|](_ => false);
      mounted := true;
      domFocus := None;
      clicks := [];
      keyboardEnabled := KeyboardNavigationOn(cfg);
      scheme := ControlSchemeOf(cfg);
      focusIndex := 0;
    }

    /**
     * `focusByIndex(i)`: with no focusable element nothing happens;
     * otherwise the element at the normalised position is focused and is
     * the only focusable element marked `data-focused`. Elements that are
     * not focusable keep their mark.
     */
    method FocusByIndex(i: int)
      requires Valid()
      modifies this`domFocus, marks
      ensures Valid()
      ensures var f := GetFocusable(nodes, mounted);
        if f == [] then domFocus == old(domFocus) && marks[..] == old(marks[..])
        else
          var idx := Normalize(i, |f|);
          && 0 <= idx < |f|
          && domFocus == Some(f[idx])
          && (forall p :: 0 <= p < |f| ==> marks[f[p]] == (p == idx))
          && (forall m :: 0 <= m < marks.Length && m !in f ==> marks[m] == old(marks[m]))
    {
      var f := GetFocusable(nodes, mounted);
      if |f| == 0 {
        return;
      }
      NormalizeIsResidue(i, |f|);
      var idx := Normalize(i, |f|);
      domFocus := Some(f[idx]);
      MarkOnly(marks, f, idx);
    }

    method HandleKey(key: string)
      requires Valid()
      modifies this`focusIndex, this`domFocus, this`clicks, marks
      ensures Valid()
      ensures var o := OnKey(old(State()), key, |GetFocusable(nodes, mounted)|);
        && State() == o.next
        && clicks == old(clicks) + (if o.click.Some? then [GetFocusable(nodes, mounted)[o.click.value]] else [])
        && (o.focusBy.None? ==> domFocus == old(domFocus) && marks[..] == old(marks[..]))
    ensures var f := GetFocusable(nodes, mounted);
      var o := OnKey(old(State()), key, |f|);
      o.focusBy.Some? ==>
        if f == [] then domFocus == old(domFocus) && marks[..] == old(marks[..])
        else
          var idx := Normalize(o.focusBy.value, |f|);
          && domFocus == Some(f[idx])
          && (forall p :: 0 <= p < |f| ==> marks[f[p]] == (p == idx))
          && (forall m :: 0 <= m < marks.Length && m !in f ==> marks[m] == old(marks[m]))
    {
      var f := GetFocusable(nodes, mounted);
      var o := OnKey(State(), key, |f|);
      focusIndex := o.next.focusIndex;
      if o.focusBy.Some? {
        FocusByIndex(o.focusBy.value);
      }
      if o.click.Some? {
        clicks := clicks + [f[o.click.value]];
      }
    }

    /** The `pacman.config.changed` listener. */
    method ConfigChanged(detail: Config)
      modifies this`keyboardEnabled, this`scheme
      ensures State() == OnConfig(old(State()), detail)
    {
      keyboardEnabled := KeyboardNavigationOn(detail);
      scheme := ControlSchemeOf(detail);
    }
  }
}
