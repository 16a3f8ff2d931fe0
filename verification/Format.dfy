/** `formatBytes`: the loop that picks the unit.  The printed quotient is a division of
    floating-point numbers and is left as the exact rational `b / div`. */
module Format {
  import opened Values
  import GoText

  const UNITS: string := "KMGTPE"

  /** A count of bytes as shown: "0 O", plain, or `bytes / div` with a unit letter. */
  datatype Shown = Nothing | Plain(bytes: int) | Scaled(bytes: int, div: int, unit: char)

  function Power(k: nat): (p: int)
    ensures p >= 1
  {
    if k == 0 then 1 else 1024 * Power(k - 1)
  }

  lemma {:induction false} PowerGrows(j: nat, k: nat)
    requires j <= k
    ensures Power(j) <= Power(k)
  {
    if j < k { PowerGrows(j, k - 1); }
  }

  /** Dividing twice is dividing by the product. */
  lemma DivDiv(b: int, d: int)
    requires b >= 0 && d > 0
    ensures b / d / 1024 == b / (1024 * d)
  {
    var q := b / d / 1024;
    var r := b / d % 1024;
    assert b / d == 1024 * q + r;
    assert b == d * (1024 * q + r) + b % d;
    assert d * (1024 * q + r) == (1024 * d) * q + d * r by { Expand(d, q, r); }
    Below(d, r, b % d);
    Quotient(b, 1024 * d, q, d * r + b % d);
  }

  lemma Expand(d: int, q: int, r: int)
    ensures d * (1024 * q + r) == (1024 * d) * q + d * r
  {}

  lemma Below(d: int, r: int, s: int)
    requires d > 0 && 0 <= r < 1024 && 0 <= s < d
    ensures 0 <= d * r + s < 1024 * d
  {
    assert d * r <= d * 1023;
  }

  lemma Quotient(b: int, m: int, q: int, s: int)
    requires m > 0 && b == m * q + s && 0 <= s < m
    ensures b / m == q
  {
    var k := b / m;
    Times(m, k + 1, q);
    Times(m, q + 1, k);
  }

  lemma Times(m: int, x: int, y: int)
    requires m > 0
    ensures x <= y ==> m * x <= m * y
    ensures m * (x + 1) == m * x + m
  {}

  /** The unit is the greatest power of 1024 not above `b`; its index never leaves the table
      and no product leaves int64. */
  method FormatBytes(b: int) returns (shown: Shown, ghost exp: nat)
    requires MIN_INT64 <= b <= MAX_INT64
    ensures b <= 0 ==> shown == Nothing
    ensures 0 < b < 1024 ==> shown == Plain(b)
    ensures b >= 1024 ==>
      && exp <= 5 && shown == Scaled(b, Power(exp + 1), UNITS[exp])
      && Power(exp + 1) <= b < 1024 * Power(exp + 1) && Power(exp + 1) <= MAX_INT64
  {
    exp := 0;
    if b <= 0 { return Nothing, 0; }
    if b < 1024 { return Plain(b), 0; }
    var div, e := 1024, 0;
    var n := b / 1024;
    while n >= 1024
      invariant div == Power(e + 1) && n == b / div && 1024 <= div <= b
      invariant e <= 5
    {
      DivDiv(b, div);
      AboveQuotient(b, div, n);
      Bounded(b, e + 2);
      div := div * 1024;
      e := e + 1;
      n := n / 1024;
    }
    BelowQuotient(b, div, n);
    exp := e;
    shown := Scaled(b, div, UNITS[e]);
  }

  lemma AboveQuotient(b: int, div: int, n: int)
    requires div > 0 && n == b / div && n >= 1024
    ensures 1024 * div <= b
  {
    assert b == div * n + b % div;
    assert div * n >= div * 1024;
  }

  lemma BelowQuotient(b: int, div: int, n: int)
    requires div > 0 && n == b / div && n < 1024
    ensures b < 1024 * div
  {
    assert b == div * n + b % div;
    assert div * n <= div * 1023;
  }

  lemma Bounded(b: int, k: nat)
    requires b <= MAX_INT64
    ensures Power(k) <= b ==> k <= 6
  {
    Apart(6, k);
    assert 1024 * Power(6) == 1024 * 1024 * 1024 * 1024 * 1024 * 1024 * 1024;
  }

  lemma Apart(j: nat, k: nat)
    ensures j < k ==> 1024 * Power(j) <= Power(k)
  {
    if j < k { PowerGrows(j + 1, k); }
  }

  /** A larger count is never shown in a smaller unit. */
  lemma UnitsAscend(a: int, b: int, j: nat, k: nat)
    requires a <= b && Power(j) <= a && b < 1024 * Power(k)
    ensures j <= k
  {
    Apart(k, j);
  }

  /** The unit is determined: powers of 1024 bracket a count in one way only. */
  lemma UnitIsUnique(b: int, j: nat, k: nat)
    requires Power(j) <= b < 1024 * Power(j) && Power(k) <= b < 1024 * Power(k)
    ensures j == k
  {
    UnitsAscend(b, b, j, k);
    UnitsAscend(b, b, k, j);
  }

  /** Every unit of the table is used: the greatest int64 is shown in the last. */
  lemma LastUnitIsReached()
    ensures Power(6) <= MAX_INT64 < 1024 * Power(6) && UNITS[5] == 'E' && |UNITS| == 6
  {
    assert Power(6) == 1024 * 1024 * 1024 * 1024 * 1024 * 1024;
  }
}
