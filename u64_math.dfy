/** Unsigned 64-bit arithmetic of the order book.
    Move aborts a transaction on any u64 overflow or underflow; the operations
    below work on unbounded naturals and the callers test the u64 bound
    explicitly before each operation that the source could abort on. */
module U64Math {

  const U64_MAX: nat := 0xFFFF_FFFF_FFFF_FFFF

  /** Move's `u64`. */
  type U64 = x: nat | x <= U64_MAX

  /** The fee rate that fill_order hard-codes, in basis points. */
  const FEE_BPS: nat := 20

  /** One whole in basis points. */
  const BPS_DENOMINATOR: nat := 10_000

  /** How much of an order one fill takes: the smaller of what the taker
      asks for and what the order still holds. */
  function FillSize(desired: nat, remaining: nat): (r: nat)
    ensures r <= desired && r <= remaining
    ensures r == desired || r == remaining
  {
    if desired <= remaining then desired else remaining
  }

  /** Ceiling division, computed as the source computes it: (n + d - 1) / d.
      The result is the least q with q * d >= n. */
  function CeilDiv(n: nat, d: nat): (q: nat)
    requires d > 0
    ensures q * d >= n
    ensures (q - 1) * d < n
    ensures q <= n + d - 1
  {
    CeilDivBounds(n, d);
    (n + d - 1) / d
  }

  lemma CeilDivBounds(n: nat, d: nat)
    requires d > 0
    ensures ((n + d - 1) / d) * d >= n
    ensures ((n + d - 1) / d - 1) * d < n
    ensures (n + d - 1) / d <= n + d - 1
  {
    var q, m := (n + d - 1) / d, (n + d - 1) % d;
    assert n + d - 1 == q * d + m && 0 <= m < d;
    assert q * d >= n by {
      assert q * d == n + d - 1 - m;
    }
    assert (q - 1) * d < n by {
      assert (q - 1) * d == q * d - d;
      assert q * d - d == n - 1 - m;
    }
    assert q <= n + d - 1 by {
      assert q * d == q * (d - 1) + q;
      assert q * (d - 1) >= 0;
    }
  }

  /** The result of a u64 computation, or None when Move would abort on it. */
  datatype Option<T> = None | Some(value: T)

  /** The quote that `canBase` costs at price priceN / priceD, as
      `(can_base * price_n + price_d - 1) / price_d`: the ceiling of the exact
      value. Move evaluates the sum left to right, so it aborts when the
      product or the product plus price_d exceeds u64; with price_d zero it
      aborts too (an underflow or a division by zero). */
  function QuoteFor(canBase: U64, priceN: U64, priceD: U64): (r: Option<U64>)
    ensures r.Some? <==> priceD > 0 && canBase * priceN + priceD <= U64_MAX
    ensures r.Some? ==> r.value * priceD >= canBase * priceN
    ensures r.Some? ==> (r.value - 1) * priceD < canBase * priceN
  {
    var num := canBase * priceN;
    if num > U64_MAX || num + priceD > U64_MAX || priceD == 0 then None
    else Some(CeilDiv(num, priceD))
  }

  /** The fee on a u64 `gross`, or None when `gross * fee_bps` overflows. */
  function FeeFor(gross: U64): (r: Option<U64>)
    ensures r.Some? <==> gross * FEE_BPS <= U64_MAX
    ensures r.Some? ==> r.value == Fee(gross)
  {
    if gross * FEE_BPS > U64_MAX then None else Some(Fee(gross))
  }

  /** The protocol fee on `gross`: FEE_BPS basis points, rounded down. */
  function Fee(gross: nat): (f: nat)
    ensures f * BPS_DENOMINATOR <= gross * FEE_BPS < (f + 1) * BPS_DENOMINATOR
    ensures f <= gross
  {
    gross * FEE_BPS / BPS_DENOMINATOR
  }

  /** Price 3/2 for 5 units of base costs 8 units of quote, not 7. */
  lemma CeilingExample()
    ensures CeilDiv(5 * 3, 2) == 8
  {
  }

  /** 20 basis points: a gross of 1000 pays a fee of 2 and leaves 998 for the
      maker; a gross of 10000 pays 20 and leaves 9980; a gross below 500 pays none. */
  lemma FeeExample()
    ensures Fee(1000) == 2 && 1000 - Fee(1000) == 998
    ensures Fee(10000) == 20 && 10000 - Fee(10000) == 9980
    ensures Fee(499) == 0 && Fee(500) == 1
  {
  }
}
