/** Facts about division with remainder that several models need. */
module Arith {

  lemma MulGrows(k: nat, d: int)
    requires k > 0
    ensures d >= 1 ==> k * d >= k
    ensures d <= -1 ==> k * d + k <= 0
  {
  }

  /** Quotient and remainder are unique. */
  lemma ModUnique(x: int, q: int, r: nat, k: nat)
    requires r < k && x == k * q + r
    ensures x % k == r && x / k == q
  {
    var d := q - x / k;
    assert k * d == x % k - r;
    MulGrows(k, d);
  }

  /** Adding `d` keeps the remainder exactly when `d` is a multiple. */
  lemma ModShift(x: nat, d: nat, k: nat)
    requires k > 0
    ensures x % k == (x + d) % k <==> d % k == 0
  {
    var qx, q2, qd := x / k, (x + d) / k, d / k;
    if x % k == (x + d) % k {
      assert d == k * (q2 - qx) + 0;
      ModUnique(d, q2 - qx, 0, k);
    }
    if d % k == 0 {
      assert x + d == k * (qx + qd) + x % k;
      ModUnique(x + d, qx + qd, x % k, k);
    }
  }
}
