/** Division facts the period grid and the cron fields rest on. */
module Arithmetic {

  lemma MulMonotone(a: int, b: int, c: int)
    requires a <= b && 0 <= c
    ensures a * c <= b * c
  {
    assert (b - a) * c >= 0;
  }

  /** Quotient and remainder are determined by t == k * d + r with 0 <= r < d. */
  lemma DivModUnique(t: int, d: int, k: int, r: int)
    requires 0 <= r < d && t == k * d + r
    ensures t / d == k && t % d == r
  {
    var q := t / d;
    assert (k - q) * d == t % d - r;
    if k < q {
      MulMonotone(k - q, -1, d);
    } else if k > q {
      MulMonotone(1, k - q, d);
    }
  }

  lemma MultipleMod(k: int, d: int)
    requires d > 0
    ensures (k * d) % d == 0 && (k * d) / d == k
  {
    DivModUnique(k * d, d, k, 0);
  }

  /** Reducing first modulo a multiple of d does not change the remainder modulo d. */
  lemma NestedMod(t: int, d: int, q: int)
    requires d > 0 && q > 0
    ensures d * q > 0 && (t % (d * q)) % d == t % d
  {
    MulMonotone(1, q, d);
    var m := d * q;
    var r := t % m;
    assert t == (t / m * q + r / d) * d + r % d by {
      assert t == t / m * m + r;
      assert t / m * m == t / m * q * d;
    }
    DivModUnique(t, d, t / m * q + r / d, r % d);
  }

  lemma MultipleOfMultiple(t: int, length: int, d: int)
    requires d > 0 && length > 0 && length % d == 0 && t % length == 0
    ensures t % d == 0
  {
    var q, k := t / length, length / d;
    assert t == (q * k) * d;
    MultipleMod(q * k, d);
  }

  lemma ShiftByMultiple(t: int, offset: int, d: int)
    requires d > 0 && t % d == 0
    ensures (t + offset) % d == offset % d
  {
    var k := t / d;
    assert t + offset == (k + offset / d) * d + offset % d;
    DivModUnique(t + offset, d, k + offset / d, offset % d);
  }
}
