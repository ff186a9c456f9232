/** Division rounded up. */
module Rounding {

  function Ceiling(n: nat, k: nat): (r: nat)
    requires k >= 1
    ensures n <= r * k < n + k
  {
    var r := (n + k - 1) / k;
    assert r * k + (n + k - 1) % k == n + k - 1;
    r
  }

  /** It is the only multiple that close. */
  lemma CeilingUnique(n: nat, k: nat, a: nat, b: nat)
    requires k >= 1 && n <= a * k < n + k && n <= b * k < n + k
    ensures a == b
  {
    Spread(a, b, k);
    Spread(b, a, k);
  }

  lemma Spread(a: nat, b: nat, k: nat)
    requires k >= 1
    ensures a < b ==> a * k + k <= b * k
  {
    if a + 1 < b {
      Spread(a, b - 1, k);
    }
    assert b > 0 ==> b * k == (b - 1) * k + k;
  }
}
