/** The few facts about remainders that ring cursors and index ranges need. */
module Modulo {

  lemma Multiple(c: nat, k: int)
    ensures k >= 1 ==> c * k >= c
    ensures k <= -1 ==> c * k + c <= 0
  {
    assert c * k == c + c * (k - 1) == c * (k + 1) - c;
  }

  /** Quotient and remainder are determined by their defining equation. */
  lemma Divides(x: int, c: nat, q: int, r: nat)
    requires r < c && x == c * q + r
    ensures x / c == q && x % c == r
  {
    var k := x / c - q;
    assert c * k == r - x % c by { assert c * k == c * (x / c) - c * q; }
    Multiple(c, k);
  }

  /** Numbers less than c apart have different remainders. */
  lemma ModDistinct(a: nat, b: nat, c: nat)
    requires a < b < a + c
    ensures a % c != b % c
  {
    var r := a % c + (b - a);
    if r < c {
      Divides(b, c, a / c, r);
    } else {
      assert c * (a / c + 1) == c * (a / c) + c;
      Divides(b, c, a / c + 1, r - c);
    }
  }

  /** Bumping a cursor modulo the capacity follows the number it stands for. */
  lemma ModBump(a: nat, c: nat)
    requires c > 0
    ensures (a % c + 1) % c == (a + 1) % c
  {
    if a % c + 1 < c {
      Divides(a + 1, c, a / c, a % c + 1);
      Divides(a % c + 1, c, 0, a % c + 1);
    } else {
      assert c * (a / c + 1) == c * (a / c) + c;
      Divides(a + 1, c, a / c + 1, 0);
      Divides(a % c + 1, c, 1, 0);
    }
  }

  lemma ModDifference(a: nat, b: nat, c: nat)
    requires c > 0
    ensures (a % c - b % c - (a - b)) % c == 0
  {
    var qa, qb := a / c, b / c;
    assert a == c * qa + a % c && b == c * qb + b % c;
    assert c * (qb - qa) == c * qb - c * qa;
    Divides(c * (qb - qa), c, qb - qa, 0);
  }

  lemma MulMonotone(a: nat, b: nat, c: nat)
    ensures a <= b ==> a * c <= b * c
  {
    assert b * c == a * c + (b - a) * c;
  }

  /** The block of length c that k falls in. */
  lemma Block(k: nat, c: nat, n: nat)
    requires c > 0 && k < n * c
    ensures k / c < n && (k / c) * c <= k < (k / c + 1) * c
  {
    var q := k / c;
    assert k == c * q + k % c && c * q == q * c && (q + 1) * c == q * c + c;
    MulMonotone(n, q, c);
  }
}
