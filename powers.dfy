/** Powers of two and the meaning of the `<<` and `>>` shifts on unsigned integers. */
module Powers {

  function Pow2(k: nat): (p: nat)
    ensures p >= 1
  {
    if k == 0 then 1 else 2 * Pow2(k - 1)
  }

  /** `v << s`, without the truncation to a machine word. */
  function Shl(v: nat, s: nat): nat {
    v * Pow2(s)
  }

  /** `v >> s` on an unsigned value. */
  function Shr(v: nat, s: nat): nat {
    var p := Pow2(s);
    DivNonNegative(v, p);
    v / p
  }

  lemma DivNonNegative(v: nat, p: nat)
    requires p >= 1
    ensures v / p >= 0
  {
  }

  lemma {:induction false} Pow2Add(a: nat, b: nat)
    ensures Pow2(a + b) == Pow2(a) * Pow2(b)
  {
    if a > 0 {
      Pow2Add(a - 1, b);
    }
  }

  lemma {:induction false} Pow2Monotone(a: nat, b: nat)
    requires a <= b
    ensures Pow2(a) <= Pow2(b)
  {
    if a < b {
      Pow2Monotone(a, b - 1);
    }
  }

  /** A coordinate inside a shifted range shifts back inside the original range. */
  lemma ShrBelow(v: nat, bound: nat, s: nat)
    requires v < Shl(bound, s)
    ensures Shr(v, s) < bound
  {
    var q := v / Pow2(s);
    if q >= bound {
      MulMono(bound, q, Pow2(s));
    }
  }

  /** Two successive right shifts are one shift by the sum. */
  lemma ShrShr(v: nat, a: nat, b: nat)
    ensures Shr(Shr(v, a), b) == Shr(v, a + b)
  {
    Pow2Add(a, b);
    DivDiv(v, Pow2(a), Pow2(b));
  }

  lemma MulMono(a: nat, b: nat, d: nat)
    requires a <= b
    ensures a * d <= b * d
  {
  }

  lemma DivUnique(v: nat, d: nat, b: nat, r: nat)
    requires d > 0 && r < d && v == b * d + r
    ensures v / d == b
  {
    var q := v / d;
    if q < b {
      MulMono(q + 1, b, d);
    } else if q > b {
      MulMono(b + 1, q, d);
    }
  }

  lemma Distrib(x: nat, y: nat, p: nat)
    ensures (x + y) * p == x * p + y * p
  {
  }

  lemma Assoc(b: nat, q: nat, p: nat)
    ensures b * q * p == b * (p * q)
  {
  }

  lemma DivMod(v: nat, p: nat)
    requires p > 0
    ensures v == v / p * p + v % p && v % p < p
  {
  }

  lemma DivDiv(v: nat, p: nat, q: nat)
    requires p > 0 && q > 0
    ensures v / p / q == v / (p * q)
  {
    var a := v / p;
    var b := a / q;
    var r1 := v % p;
    var r2 := a % q;
    DivMod(v, p);
    DivMod(a, q);
    Distrib(b * q, r2, p);
    Assoc(b, q, p);
    assert v == b * (p * q) + (r2 * p + r1);
    MulMono(r2, q - 1, p);
    Distrib(q - 1, 1, p);
    DivUnique(v, p * q, b, r2 * p + r1);
  }
}
