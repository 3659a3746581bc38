/**
 * Small building blocks shared by the screens: an Option type, JavaScript's
 * truncating remainder, ASCII lower-casing of key names and the mapping of
 * the two control schemes to their up/down keys.
 */
module Base {

  datatype Option<+T> = None | Some(value: T)

  /** JavaScript's `a % b`: the result takes the sign of the dividend. */
  function JsRem(a: int, b: int): (r: int)
    requires b > 0
    ensures a >= 0 ==> 0 <= r < b
    ensures a < 0 ==> -b < r <= 0
  {
    if a >= 0 then a % b else -((-a) % b)
  }

  lemma MulAtLeast(d: int, b: int)
    requires b > 0 && d >= 1
    ensures d * b >= b
  {
  }

  /** Euclidean remainder is determined by any quotient/remainder split. */
  lemma ModUnique(a: int, b: int, k: int, r: int)
    requires b > 0 && 0 <= r < b && a == k * b + r
    ensures a % b == r
  {
    var q, m := a / b, a % b;
    assert a == q * b + m;
    var d := q - k;
    assert d * b == q * b - k * b;
    assert d * b == r - m;
    if d > 0 { MulAtLeast(d, b); }
    else if d < 0 { MulAtLeast(-d, b); }
  }

  /**
   * JavaScript's remainder differs from the Euclidean one only for a
   * negative dividend that is not a multiple, and then by exactly `b`.
   */
  lemma JsRemAgainstEuclid(a: int, b: int)
    requires b > 0
    ensures a >= 0 || a % b == 0 ==> JsRem(a, b) == a % b
    ensures a < 0 && a % b != 0 ==> JsRem(a, b) == a % b - b
  {
    if a < 0 {
      var q, m := (-a) / b, (-a) % b;
      assert -a == q * b + m;
      if m == 0 { ModUnique(a, b, -q, 0); }
      else { ModUnique(a, b, -q - 1, b - m); }
    }
  }

  function LowerChar(c: char): (d: char)
    ensures 'A' <= c <= 'Z' ==> 'a' <= d <= 'z'
    ensures !('A' <= c <= 'Z') ==> d == c
  {
    if 'A' <= c <= 'Z' then (c as int - 'A' as int + 'a' as int) as char else c
  }

  /** `String.prototype.toLowerCase`, restricted to the ASCII letters. */
  function ToLower(s: string): (t: string)
    ensures |t| == |s|
    ensures forall i :: 0 <= i < |s| ==> t[i] == LowerChar(s[i])
  {
    seq(|s|, i requires 0 <= i < |s| => LowerChar(s[i]))
  }

  /** The two key layouts a screen can be configured with. */
  datatype Scheme = Arrow | Wasd

  /** The lower-cased key that moves up under a scheme. */
  function UpKey(scheme: Scheme): string
  {
    if scheme == Wasd then "w" else "arrowup"
  }

  /** The lower-cased key that moves down under a scheme. */
  function DownKey(scheme: Scheme): string
  {
    if scheme == Wasd then "s" else "arrowdown"
  }

  /** `isUp` of the key handlers: `k` is already lower-cased. */
  predicate IsUp(scheme: Scheme, k: string)
  {
    k == UpKey(scheme)
  }

  predicate IsDown(scheme: Scheme, k: string)
  {
    k == DownKey(scheme)
  }

  /** Enter or Space, the activation keys (lower-cased). */
  predicate IsActivate(k: string)
  {
    k == "enter" || k == " "
  }

  /**
   * Scheme exclusivity: a lower-cased key moves under at most one scheme,
   * and the up and down keys of one scheme are different keys.
   */
  lemma SchemeExclusive(k: string)
    ensures !(IsUp(Arrow, k) && IsUp(Wasd, k))
    ensures !(IsDown(Arrow, k) && IsDown(Wasd, k))
    ensures !(IsUp(Arrow, k) && IsDown(Wasd, k))
    ensures !(IsUp(Wasd, k) && IsDown(Arrow, k))
    ensures forall s: Scheme :: !(IsUp(s, k) && IsDown(s, k))
  {
  }
}
