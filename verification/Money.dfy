/** Integer money arithmetic of the kernel (src/kernel/money.ts). */
module Money {
  import opened Options

  const WSOL_MINT := "So11111111111111111111111111111111111111112"
  const USDC_MINT := "EPjFWdd5AufqSSqeM2qN1xzybapC8G4wEGGkZwyTDt1v"
  const USDT_MINT := "Es9vMFrzaCERmJfrF4H2FYD4KCoNkY11McCe8BenwNYB"

  /** The asset a spend cap is denominated in. */
  datatype QuoteBucket = Sol | Usdc

  /** The cap bucket an input mint draws from; None for a sell. */
  function QuoteBucketFor(mint: string): Option<QuoteBucket> {
    if mint == WSOL_MINT then Some(Sol)
    else if mint == USDC_MINT || mint == USDT_MINT then Some(Usdc)
    else None
  }

  /** Which mints draw from which bucket. */
  lemma BucketMeans(mint: string)
    ensures QuoteBucketFor(mint) == Some(Sol) <==> mint == WSOL_MINT
    ensures QuoteBucketFor(mint) == Some(Usdc) <==> mint in {USDC_MINT, USDT_MINT}
    ensures QuoteBucketFor(mint).Some? <==> mint in {WSOL_MINT, USDC_MINT, USDT_MINT}
  {
    assert WSOL_MINT[0] == 'S' && USDC_MINT[0] == 'E' && USDT_MINT[0] == 'E';
  }

  /** BigInt division: truncates toward zero, unlike Dafny's Euclidean `/`. */
  function TruncDiv(a: int, b: int): int
    requires b > 0
  {
    if a >= 0 then a / b else -((-a) / b)
  }

  /** Shortfall of `actual` against `expected`, in basis points, truncated toward zero. */
  function SlippageBps(expected: int, actual: int): int {
    if expected <= 0 then 0 else TruncDiv((expected - actual) * 10_000, expected)
  }

  /** A measured slippage of at most `bound` is exactly an amount above a rational floor. */
  lemma SlippageWithin(expected: int, actual: int, bound: nat)
    requires expected > 0
    ensures SlippageBps(expected, actual) <= bound
       <==> actual * 10_000 > expected * (9_999 - bound)
  {
    var num := (expected - actual) * 10_000;
    assert num == expected * 10_000 - actual * 10_000;
    if num >= 0 {
      QuotientBound(num, expected, bound);
      assert expected * (bound + 1) == expected * bound + expected;
      assert expected * (9_999 - bound) == expected * 10_000 - expected * (bound + 1);
    } else {
      NonNegativeQuotient(-num, expected);
      assert expected * (9_999 - bound) <= expected * 10_000 by { MulMonotone(expected, 9_999 - bound, 10_000); }
    }
  }

  lemma QuotientBound(a: nat, b: nat, q: nat)
    requires b > 0
    ensures a / b <= q <==> a < b * (q + 1)
  {
    assert a == b * (a / b) + a % b;
    if a / b <= q {
      MulMonotone(b, a / b, q);
      assert b * (q + 1) == b * q + b;
    } else {
      MulMonotone(b, q + 1, a / b);
    }
  }

  lemma NonNegativeQuotient(a: nat, b: nat)
    requires b > 0
    ensures a / b >= 0
  {
  }

  lemma MulMonotone(k: nat, a: int, b: int)
    requires a <= b
    ensures k * a <= k * b
  {
    assert k * b - k * a == k * (b - a);
  }

  /** Receiving more never measures as more slippage. */
  lemma SlippageMonotone(expected: int, low: int, high: int)
    requires low <= high
    ensures SlippageBps(expected, high) <= SlippageBps(expected, low)
  {
    if expected > 0 {
      var a, b := (expected - high) * 10_000, (expected - low) * 10_000;
      assert a <= b;
      TruncDivMonotone(a, b, expected);
    }
  }

  lemma TruncDivMonotone(a: int, b: int, d: int)
    requires d > 0 && a <= b
    ensures TruncDiv(a, d) <= TruncDiv(b, d)
  {
    if 0 <= a {
      DivMonotone(a, b, d);
    } else if b < 0 {
      DivMonotone(-b, -a, d);
    } else {
      NonNegativeQuotient(-a, d);
      NonNegativeQuotient(b, d);
    }
  }

  lemma DivMonotone(a: nat, b: nat, d: nat)
    requires d > 0 && a <= b
    ensures a / d <= b / d
  {
    QuotientBound(a, d, b / d);
    assert b == d * (b / d) + b % d;
    assert d * (b / d + 1) == d * (b / d) + d;
  }
}
