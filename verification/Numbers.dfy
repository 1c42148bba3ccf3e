/** Facts about products and quotients that the verifier does not find by itself. */
module Numbers {

  function Max(a: int, b: int): int { if a < b then b else a }

  lemma MulMonotone(a: nat, b: nat, price: nat)
    requires a <= b
    ensures a * price <= b * price
  {
  }

  lemma MulStrict(a: nat, b: nat, price: nat)
    requires a < b && 0 < price
    ensures a * price < b * price
  {
  }

  /** Whole units of a price covered by an amount. */
  lemma QuotientCompares(x: nat, price: nat, b: nat)
    requires price > 0
    ensures b * price <= x <==> b <= x / price
  {
    var q := x / price;
    assert x == q * price + x % price;
    if b <= q {
      MulMonotone(b, q, price);
    } else {
      MulMonotone(q + 1, b, price);
      assert (q + 1) * price == q * price + price;
    }
  }

  lemma QuotientExact(b: nat, price: nat)
    requires price > 0
    ensures (b * price) / price == b
    ensures b > 0 ==> b * price > 0
  {
    QuotientCompares(b * price, price, b);
    QuotientCompares(b * price, price, b + 1);
    assert (b + 1) * price == b * price + price;
    if b > 0 { MulMonotone(1, b, price); }
  }
}
