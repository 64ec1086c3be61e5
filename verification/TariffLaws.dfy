/** What a charge is: bucket by bucket, on either side of the threshold, and against the reservation. */
module TariffLaws {
  import opened Text
  import opened Binary64
  import opened Tariff

  // ---- one bucket ------------------------------------------------------------------------------

  /** What `tokens` cost at a price per token: the charge for so much plain input. */
  function AtPrice(tokens: int, price: real, multiplier: real): int {
    Cost(RatesOf(Price(price, 0.0, None, None, None)), Usage(tokens, 0, 0, 0, 0), multiplier)
  }

  lemma SatSumOf5(a: int, b: int, c: int, d: int, e: int)
    requires a >= 0 && b >= 0 && c >= 0 && d >= 0 && e >= 0
    ensures SatSum([a, b, c, d, e]) == if a + b + c + d + e > MAX then MAX else a + b + c + d + e
  {
    SatSumIsTotal([a, b, c, d, e]);
    TotalOf5(a, b, c, d, e);
  }

  lemma AtPriceIs(tokens: int, price: real, multiplier: real)
    ensures AtPrice(tokens, price, multiplier) == Scaled(tokens, price, multiplier)
    ensures 0 <= AtPrice(tokens, price, multiplier) <= MAX
  {
    ScaledRange(tokens, price, multiplier);
    assert Scaled(0, price, multiplier) == 0 && Scaled(0, 0.0, multiplier) == 0;
    hide Scaled;
    SatSumOf5(Scaled(tokens, price, multiplier), 0, 0, 0, 0);
  }

  /** A charge is the sum of its buckets, each at its own price: cached input at the price for it,
      or else as input; cache creation at the price for its lifetime, or else for nothing. The sum
      stops at the largest amount. */
  lemma BucketsAdd(price: Price, u: Usage, multiplier: real)
    ensures var sum := AtPrice(u.input, price.input, multiplier) + AtPrice(u.output, price.output, multiplier)
                       + AtPrice(u.read, if price.read.Some? then price.read.value else price.input, multiplier)
                       + (if price.create5m.Some? then AtPrice(u.create5m, price.create5m.value, multiplier) else 0)
                       + (if price.create1h.Some? then AtPrice(u.create1h, price.create1h.value, multiplier) else 0);
            Cost(RatesOf(price), u, multiplier) == if sum > 0x7FFF_FFFF_FFFF_FFFF then 0x7FFF_FFFF_FFFF_FFFF else sum
  {
    var r := RatesOf(price);
    AtPriceIs(u.input, r.input, multiplier);
    AtPriceIs(u.output, r.output, multiplier);
    AtPriceIs(u.read, r.read, multiplier);
    AtPriceIs(u.create5m, r.create5m, multiplier);
    AtPriceIs(u.create1h, r.create1h, multiplier);
    assert Scaled(u.create5m, 0.0, multiplier) == 0 && Scaled(u.create1h, 0.0, multiplier) == 0;
    hide Scaled, AtPrice;
    SatSumOf5(Scaled(u.input, r.input, multiplier), Scaled(u.read, r.read, multiplier), Scaled(u.output, r.output, multiplier),
              Scaled(u.create5m, r.create5m, multiplier), Scaled(u.create1h, r.create1h, multiplier));
    hide SatSum;
  }

  /** A bucket costs its tokens times the price times the multiplier, in units of one part in ten
      thousand, to the nearest unit and within one part in 2^51. */
  lemma AtPriceNear(tokens: int, price: real, multiplier: real)
    requires 0 <= tokens <= 0x7FFF_FFFF && price >= 0.0 && multiplier >= 0.0
    ensures var exact, amount := tokens as real * price * multiplier * 10000.0, AtPrice(tokens, price, multiplier) as real;
            && amount <= exact + exact / 2251799813685248.0 + 0.5
            && (AtPrice(tokens, price, multiplier) < 0x7FFF_FFFF_FFFF_FFFF ==> amount >= exact - exact / 2251799813685248.0 - 0.5)
  {
    AtPriceIs(tokens, price, multiplier);
    ScaledAbove(tokens, price, price, multiplier);
    if Scaled(tokens, price, multiplier) < MAX { ScaledBelow(tokens, price, multiplier); }
    ExactProduct(tokens, price, multiplier);
    hide AtPrice, Scaled, Exact, PerToken;
    var exact := Exact(tokens, PerToken(price, multiplier));
    assert exact * (4.0 * UNIT) == exact / 2251799813685248.0;
  }

  lemma ExactProduct(tokens: int, price: real, multiplier: real)
    ensures Exact(tokens, PerToken(price, multiplier)) == tokens as real * price * multiplier * 10000.0
  {
    ExactIs(tokens, price, multiplier);
    hide Exact, PerToken;
  }

  // ---- which price list ------------------------------------------------------------------------

  /** The price list of a request: the one of its band, and of the long context for a request whose
      input, cached or not, is above the threshold; at the threshold the base list still holds. */
  function ListFor(c: Config, band: string, input: int): Prices {
    var long := c.long.Some? && input > c.long.value.threshold;
    if c.time.Some? && band == "peak" then
      if long then (if c.time.value.peakLong.Some? then c.time.value.peakLong.value else map[]) else c.time.value.peak
    else if long then c.long.value.prices
    else c.prices
  }

  lemma ChargeMeans(c: Config, band: string, tier: string, u: Usage, multiplier: real)
    requires Valid(c) && tier in TIERS && Counted(u)
    ensures var prices := ListFor(c, band, u.input + u.read + u.create5m + u.create1h);
            tier in prices && ChargeOf(c, band, tier, u, multiplier) == Cost(RatesOf(prices[tier]), u, multiplier)
  {
    hide Cost, ContextInput, Counted, PricesForInput, ForTimeBand, ListFor, AllPrices, Valid;
    SelectedPrice(c, band, tier, ContextInput(u));
    ListChosen(c, band, u);
  }

  lemma ListChosen(c: Config, band: string, u: Usage)
    requires Valid(c) && Counted(u)
    ensures PricesForInput(ForTimeBand(c, band), ContextInput(u)) == ListFor(c, band, u.input + u.read + u.create5m + u.create1h)
  {
    hide ContextInput;
    InputCounted(u);
    assert c.long.Some? ==> c.long.value.threshold <= 0x7FFF_FFFF;
  }

  lemma InputCounted(u: Usage)
    requires Counted(u)
    ensures var all := u.input + u.read + u.create5m + u.create1h; ContextInput(u) == if all > MAX then MAX else all
  {
    SatSumIsTotal([u.input, u.read, u.create5m, u.create1h]);
    TotalOf4(u.input, u.read, u.create5m, u.create1h);
  }

  // ---- the reservation is no more than it must be ------------------------------------------------

  /** The bound on input, all in one bucket. */
  function AllIn(bucket: int, input: int, output: int): Usage {
    Usage(if bucket == 0 then input else 0, output, if bucket == 1 then input else 0, if bucket == 2 then input else 0,
          if bucket == 3 then input else 0)
  }

  /** Before padding, the reservation is itself a charge at the maximum prices: for the whole input
      bound in the dearest bucket, and the whole output bound. */
  lemma BaseIsACharge(m: Rates, inputBound: int, outputBound: int, multiplier: real)
    requires NonNegative(m)
    ensures exists bucket :: 0 <= bucket < 4 &&
              ReservedBase(m, inputBound, outputBound, multiplier) == Cost(m, AllIn(bucket, inputBound, outputBound), multiplier)
  {
    var h := HighestInput(m);
    var bucket := if m.input == h then 0 else if m.read == h then 1 else if m.create5m == h then 2 else 3;
    ScaledRange(inputBound, h, multiplier);
    ScaledRange(outputBound, m.output, multiplier);
    assert Scaled(0, m.input, multiplier) == 0 && Scaled(0, m.read, multiplier) == 0
           && Scaled(0, m.create5m, multiplier) == 0 && Scaled(0, m.create1h, multiplier) == 0;
    hide Scaled;
    var a, b := Scaled(inputBound, h, multiplier), Scaled(outputBound, m.output, multiplier);
    SatSumOf5(a, 0, b, 0, 0);
    SatSumOf5(0, a, b, 0, 0);
    SatSumOf5(0, 0, b, a, 0);
    SatSumOf5(0, 0, b, 0, a);
    SatSumIsTotal([a, b]);
    TotalOf2(a, b);
    hide SatSum;
    assert ReservedBase(m, inputBound, outputBound, multiplier) == Cost(m, AllIn(bucket, inputBound, outputBound), multiplier);
  }

  /** Padding adds four units, stays below the largest amount, and reserves one unit at least. */
  lemma PaddingMeans(base: int)
    requires 0 <= base <= 0x7FFF_FFFF_FFFF_FFFF
    ensures 1 <= Reservation(base) <= 0x7FFF_FFFF_FFFF_FFFF
    ensures Reservation(base) == if base < 0x7FFF_FFFF_FFFF_FFFB then base + 4 else base
  {
  }
}
