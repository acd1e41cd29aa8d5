/** Turning raw on-chain and aggregator amounts into a LINK price in USDC,
    and the two prices into a signed profit percentage. */
module Pricing {
  import opened Wrappers
  import opened Addresses

  const USDC_DECIMALS: nat := 6
  const LINK_DECIMALS: nat := 18

  /** A pool reserve as read from `getReserves()`: a `uint112`, and positive
      (an empty pool has no price). */
  type Reserve = r: nat | 0 < r < 0x1_0000_0000_0000_0000_0000_0000_0000 witness 1

  function Pow10(n: nat): (r: nat)
    ensures r >= 1
  {
    if n == 0 then 1 else 10 * Pow10(n - 1)
  }

  /** A raw integer amount in a token's smallest unit, as whole tokens. */
  function Amount(raw: nat, decimals: nat): (x: real)
    ensures x >= 0.0
    ensures x * Pow10(decimals) as real == raw as real
  {
    raw as real / Pow10(decimals) as real
  }

  /** `Amount` loses nothing: a whole number of tokens written in the token's
      smallest unit reads back as that number. */
  lemma AmountOfWholeTokens(n: nat, decimals: nat)
    ensures Amount(n * Pow10(decimals), decimals) == n as real
  {
  }

  /** What one pool of `usdcReserve` USDC units against `linkReserve` LINK units
      quotes for one LINK. */
  function UsdcPerLink(usdcReserve: Reserve, linkReserve: Reserve): (price: real)
    ensures price > 0.0
    ensures price * Amount(linkReserve, LINK_DECIMALS) == Amount(usdcReserve, USDC_DECIMALS)
  {
    Amount(usdcReserve, USDC_DECIMALS) / Amount(linkReserve, LINK_DECIMALS)
  }

  /** The configured token addresses, as given (they are lower-cased before use). */
  datatype Tokens = Tokens(usdc: string, link: string)

  /** The pool's reply: both reserves and the two token addresses, in pool order. */
  datatype PoolReading = PoolReading(reserve0: Reserve, reserve1: Reserve, token0: string, token1: string)

  datatype PriceError =
    | PoolUnavailable
    | TokensMismatch(token0: string, token1: string)
    | QuoteUnavailable
    | QuoteMissingOutAmount

  /** The ordered token pair (a, b) is (USDC, LINK) after lower-casing. */
  predicate IsUsdcThenLink(tokens: Tokens, a: string, b: string) {
    Lower(a) == Lower(tokens.usdc) && Lower(b) == Lower(tokens.link)
  }

  /** The pool's LINK price in USDC. Either token order is accepted, the reserves
      following their tokens; a pool whose tokens are not USDC and LINK in
      either order is an error, not a price. */
  function SushiPrice(tokens: Tokens, pool: PoolReading): (r: Result<real, PriceError>)
    ensures r.Ok? <==> IsUsdcThenLink(tokens, pool.token0, pool.token1)
                       || IsUsdcThenLink(tokens, pool.token1, pool.token0)
    ensures r.Err? ==> r.error == TokensMismatch(Lower(pool.token0), Lower(pool.token1))
    ensures r.Ok? ==> r.value > 0.0
    ensures IsUsdcThenLink(tokens, pool.token0, pool.token1) ==>
              r.Ok? && r.value * Amount(pool.reserve1, LINK_DECIMALS) == Amount(pool.reserve0, USDC_DECIMALS)
    ensures !IsUsdcThenLink(tokens, pool.token0, pool.token1) && IsUsdcThenLink(tokens, pool.token1, pool.token0) ==>
              r.Ok? && r.value * Amount(pool.reserve0, LINK_DECIMALS) == Amount(pool.reserve1, USDC_DECIMALS)
  {
    var t0 := Lower(pool.token0);
    var t1 := Lower(pool.token1);
    var usdc := Lower(tokens.usdc);
    var link := Lower(tokens.link);
    if t0 == usdc && t1 == link then
      Ok(UsdcPerLink(pool.reserve0, pool.reserve1))
    else if t0 == link && t1 == usdc then
      Ok(UsdcPerLink(pool.reserve1, pool.reserve0))
    else
      Err(TokensMismatch(t0, t1))
  }

  /** Listing the pool's tokens the other way round, reserves included, gives
      the same price, as long as the configured USDC and LINK differ. */
  lemma SushiPriceIgnoresTokenOrder(tokens: Tokens, pool: PoolReading)
    requires Lower(tokens.usdc) != Lower(tokens.link)
    ensures SushiPrice(tokens, PoolReading(pool.reserve1, pool.reserve0, pool.token1, pool.token0)).Ok?
            == SushiPrice(tokens, pool).Ok?
    ensures SushiPrice(tokens, pool).Ok? ==>
              SushiPrice(tokens, PoolReading(pool.reserve1, pool.reserve0, pool.token1, pool.token0))
              == SushiPrice(tokens, pool)
  {
  }

  /** The price does not depend on how the pool's addresses are capitalised. */
  lemma SushiPriceIgnoresCase(tokens: Tokens, pool: PoolReading, token0: string, token1: string)
    requires Lower(token0) == Lower(pool.token0) && Lower(token1) == Lower(pool.token1)
    ensures SushiPrice(tokens, pool.(token0 := token0, token1 := token1)) == SushiPrice(tokens, pool)
  {
  }

  /** 3,000,000 USDC against 2,000 LINK is 1,500 USDC per LINK. */
  lemma SushiPriceExample(tokens: Tokens)
    requires Lower(tokens.usdc) != Lower(tokens.link)
    ensures SushiPrice(tokens, PoolReading(3_000_000_000_000, 2_000_000_000_000_000_000_000, tokens.usdc, tokens.link))
            == Ok(1500.0)
    ensures SushiPrice(tokens, PoolReading(2_000_000_000_000_000_000_000, 3_000_000_000_000, tokens.link, tokens.usdc))
            == Ok(1500.0)
  {
  }

  /** The amount of LINK the aggregator is asked to quote: one whole LINK. */
  const ONE_LINK: nat := 1_000_000_000_000_000_000

  lemma OneLinkIsOneToken()
    ensures Amount(ONE_LINK, LINK_DECIMALS) == 1.0
  {
    assert Pow10(6) == 1_000_000;
    assert Pow10(LINK_DECIMALS) == ONE_LINK;
    AmountOfWholeTokens(1, LINK_DECIMALS);
  }

  /** The aggregator's reply to a quote for ONE_LINK: the request failed, or the
      list of output amounts in USDC units. */
  datatype OdosReply = OdosFailed | OdosReply(outAmounts: seq<nat>)

  /** The aggregator's LINK price in USDC: the first output amount, in whole
      USDC, since the quote was for exactly one LINK. */
  function OdosPrice(reply: OdosReply): (r: Result<real, PriceError>)
    ensures reply.OdosFailed? ==> r == Err(QuoteUnavailable)
    ensures reply.OdosReply? && reply.outAmounts == [] ==> r == Err(QuoteMissingOutAmount)
    ensures reply.OdosReply? && reply.outAmounts != [] ==>
              r.Ok? && r.value >= 0.0 && r.value * Pow10(USDC_DECIMALS) as real == reply.outAmounts[0] as real
    ensures r.Ok? ==> r.value * Amount(ONE_LINK, LINK_DECIMALS) == Amount(reply.outAmounts[0], USDC_DECIMALS)
  {
    match reply
    case OdosFailed => Err(QuoteUnavailable)
    case OdosReply(outAmounts) =>
      if outAmounts == [] then Err(QuoteMissingOutAmount)
      else
        OneLinkIsOneToken();
        Ok(Amount(outAmounts[0], USDC_DECIMALS))
  }

  /** The profit of buying on the pool and selling through the aggregator, in
      percent of the pool price. It is signed: negative when the aggregator is
      cheaper. */
  function ProfitPct(odos: real, sushi: real): (p: real)
    requires sushi > 0.0
    ensures p > 0.0 <==> odos > sushi
    ensures p == 0.0 <==> odos == sushi
    ensures p < 0.0 <==> odos < sushi
    ensures odos == sushi * (1.0 + p / 100.0)
  {
    (odos - sushi) / sushi * 100.0
  }

  /** The aggregator price is determined by the pool price and the profit: a
      profit percentage is the only one that reproduces its aggregator price. */
  lemma ProfitPctInverse(sushi: real, p: real)
    requires sushi > 0.0
    ensures ProfitPct(sushi * (1.0 + p / 100.0), sushi) == p
  {
  }

  /** A higher aggregator price never means a lower profit. */
  lemma ProfitPctMonotonic(odos1: real, odos2: real, sushi: real)
    requires sushi > 0.0 && odos1 <= odos2
    ensures ProfitPct(odos1, sushi) <= ProfitPct(odos2, sushi)
  {
  }
}
