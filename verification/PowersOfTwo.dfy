/** Powers of two, for the shifts of the backoff and of the base64 register. */
module PowersOfTwo {
  function Pow2(n: nat): (r: int)
    ensures r >= 1
  { if n == 0 then 1 else 2 * Pow2(n - 1) }

  lemma PowerIsMonotone(m: nat, n: nat)
    requires m <= n
    ensures Pow2(m) <= Pow2(n)
  {
    if m < n { PowerIsMonotone(m, n - 1); }
  }

  lemma PowersAdd(a: nat, b: nat)
    ensures Pow2(a + b) == Pow2(a) * Pow2(b)
  {
    if a > 0 { PowersAdd(a - 1, b); assert 2 * Pow2(a - 1) * Pow2(b) == 2 * (Pow2(a - 1) * Pow2(b)); }
  }
}
