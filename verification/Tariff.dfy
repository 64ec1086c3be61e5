/** Tariffs with service tiers, a long-context step and peak hours: what a request may cost at
    most, and that more usage never costs less. Products are rounded as binary floating point. */
module Tariff {
  import opened Text
  import opened Binary64
  import TimeBands

  datatype Price = Price(input: real, output: real, read: Option<real>, create5m: Option<real>, create1h: Option<real>)

  /** The five rates that are charged: an unpriced cache read is charged as input, an unpriced
      cache creation is not charged. */
  datatype Rates = Rates(input: real, output: real, read: real, create5m: real, create1h: real)

  function Or(o: Option<real>, absent: real): real {
    if o.Some? then o.value else absent
  }

  function RatesOf(p: Price): Rates {
    Rates(p.input, p.output, Or(p.read, p.input), Or(p.create5m, 0.0), Or(p.create1h, 0.0))
  }

  predicate AtMost(a: Rates, b: Rates) {
    a.input <= b.input && a.output <= b.output && a.read <= b.read && a.create5m <= b.create5m && a.create1h <= b.create1h
  }

  predicate NonNegative(r: Rates) {
    r.input >= 0.0 && r.output >= 0.0 && r.read >= 0.0 && r.create5m >= 0.0 && r.create1h >= 0.0
  }

  type Prices = map<string, Price>

  const TIERS: seq<string> := ["default", "priority", "flex"]

  // ---- validation ------------------------------------------------------------------------

  predicate PriceValid(p: Price) {
    && p.read.Some? && p.input >= 0.0 && p.output >= 0.0 && p.read.value >= 0.0
    && (p.create5m.Some? ==> p.create5m.value >= 0.0) && (p.create1h.Some? ==> p.create1h.value >= 0.0)
  }

  /** Exactly the three tiers, each with a valid price. */
  predicate TiersValid(prices: Prices) {
    |prices| == 3 && forall i :: 0 <= i < |TIERS| ==> TIERS[i] in prices && PriceValid(prices[TIERS[i]])
  }

  predicate TiersComplete(prices: Prices) {
    TiersValid(prices) && forall t :: t in prices ==> prices[t].create5m.Some? && prices[t].create1h.Some?
  }

  /** Upstream prices are what a supplier charges; they may be unknown. */
  datatype LongContext = LongContext(threshold: int, policy: string, prices: Prices, upstream: Option<Prices>)

  const POLICY := "whole_request_input_gt_v1"

  /** Long-context prices are complete and never below the base price of the same tier. */
  predicate LongValid(c: LongContext, base: Prices) {
    && 1 <= c.threshold <= 0x7FFF_FFFF && c.policy == POLICY && TiersComplete(c.prices)
    && (forall t :: t in c.prices && t in base ==> AtMost(RatesOf(base[t]), RatesOf(c.prices[t])))
    && (c.upstream.Some? ==> TiersComplete(c.upstream.value))
  }

  datatype TimePricing = TimePricing(windows: seq<TimeBands.Window>, peak: Prices, peakUpstream: Option<Prices>,
                                     peakLong: Option<Prices>, peakLongUpstream: Option<Prices>)

  /** The one source and model a tariff is for. */
  datatype Target = Target(kind: string, id: int, model: string)

  datatype Config = Config(enabled: bool, version: int, target: Target, prices: Prices, upstream: Option<Prices>,
                           long: Option<LongContext>, time: Option<TimePricing>)

  /** The long-context tariff of peak hours. */
  function PeakLong(t: TimePricing, long: LongContext): LongContext {
    long.(prices := Or2(t.peakLong, map[]), upstream := t.peakLongUpstream)
  }

  function Or2(o: Option<Prices>, absent: Prices): Prices {
    if o.Some? then o.value else absent
  }

  ghost predicate TimeValid(t: TimePricing, long: Option<LongContext>) {
    && TimeBands.WindowsValid(t.windows) && TiersComplete(t.peak)
    && (t.peakUpstream.Some? ==> TiersComplete(t.peakUpstream.value))
    && if long.None? then t.peakLong.None? && t.peakLongUpstream.None?
       else t.peakLong.Some? && LongValid(PeakLong(t, long.value), t.peak)
  }

  predicate VersionValid(c: Config) {
    || (c.version == 1 && c.long.None? && c.time.None?)
    || (c.version == 2 && c.long.Some? && c.time.None?)
    || (c.version == 3 && c.time.Some?)
  }

  predicate TargetValid(t: Target) {
    t.kind == "channel" && t.id > 0 && t.model != "" && t.model == TrimSpace(t.model) && |t.model| <= 255
  }

  /** A configuration in force; one that is not enabled is inert and always accepted. */
  ghost predicate Valid(c: Config) {
    && VersionValid(c) && TargetValid(c.target) && TiersValid(c.prices)
    && (c.time.Some? ==> TimeValid(c.time.value, c.long))
    && (c.upstream.Some? ==> TiersValid(c.upstream.value))
    && (c.long.Some? ==> LongValid(c.long.value, c.prices))
  }

  method ValidateTierPrices(prices: Prices) returns (ok: bool)
    ensures ok == TiersValid(prices)
  {
    if |prices| != 3 { return false; }
    for i := 0 to |TIERS|
      invariant forall j :: 0 <= j < i ==> TIERS[j] in prices && PriceValid(prices[TIERS[j]])
    {
      var tier := TIERS[i];
      if tier !in prices || prices[tier].read.None? { return false; }
      var p := prices[tier];
      if p.input < 0.0 || p.output < 0.0 || p.read.value < 0.0 { return false; }
      if p.create5m.Some? && p.create5m.value < 0.0 { return false; }
      if p.create1h.Some? && p.create1h.value < 0.0 { return false; }
    }
    return true;
  }

  method ValidateOptional(prices: Option<Prices>) returns (ok: bool)
    ensures ok == (prices.Some? ==> TiersComplete(prices.value))
  {
    if prices.None? { return true; }
    ok := ValidateComplete(prices.value);
  }

  /** The long-context part, tier by tier; the base prices were found valid before. */
  method ValidateLongContext(c: LongContext, base: Prices) returns (ok: bool)
    requires TiersValid(base)
    ensures ok == LongValid(c, base)
  {
    if c.threshold < 1 || c.threshold > 0x7FFF_FFFF || c.policy != POLICY { return false; }
    ok := ValidateComplete(c.prices);
    if !ok { return; }
    ok := NotBelow(c.prices, base);
    if !ok { return; }
    ok := ValidateOptional(c.upstream);
  }

  method NotBelow(prices: Prices, base: Prices) returns (ok: bool)
    requires TiersValid(base) && TiersComplete(prices)
    ensures ok == forall t :: t in prices && t in base ==> AtMost(RatesOf(base[t]), RatesOf(prices[t]))
  {
    OnlyTiers(prices);
    OnlyTiers(base);
    hide TiersComplete, TiersValid;
    for i := 0 to |TIERS|
      invariant forall j :: 0 <= j < i ==> AtMost(RatesOf(base[TIERS[j]]), RatesOf(prices[TIERS[j]]))
    {
      var price, original := prices[TIERS[i]], base[TIERS[i]];
      var read, create5m, create1h := original.input, 0.0, 0.0;
      if original.read.Some? {
        read := original.read.value;
      }
      if original.create5m.Some? {
        create5m := original.create5m.value;
      }
      if original.create1h.Some? {
        create1h := original.create1h.value;
      }
      if price.input < original.input || price.output < original.output || Or(price.read, price.input) < read ||
         Or(price.create5m, 0.0) < create5m || Or(price.create1h, 0.0) < create1h
      {
        return false;
      }
    }
    forall t | t in prices ensures AtMost(RatesOf(base[t]), RatesOf(prices[t])) {
      var j :| 0 <= j < |TIERS| && TIERS[j] == t;
    }
    return true;
  }

  method ValidateComplete(prices: Prices) returns (ok: bool)
    ensures ok == TiersComplete(prices)
  {
    ok := ValidateTierPrices(prices);
    if !ok { return; }
    OnlyTiers(prices);
    for i := 0 to |TIERS|
      invariant forall j :: 0 <= j < i ==> prices[TIERS[j]].create5m.Some? && prices[TIERS[j]].create1h.Some?
    {
      if prices[TIERS[i]].create5m.None? || prices[TIERS[i]].create1h.None? { return false; }
    }
    forall t | t in prices ensures prices[t].create5m.Some? && prices[t].create1h.Some? {
      var j :| 0 <= j < |TIERS| && TIERS[j] == t;
    }
    return true;
  }

  method Validate(c: Config) returns (ok: bool)
    ensures ok == (c.enabled ==> Valid(c))
  {
    if !c.enabled { return true; }
    hide TiersValid, TiersComplete, LongValid, TimeValid;
    if (c.version != 1 || c.long.Some? || c.time.Some?) && (c.version != 2 || c.long.None? || c.time.Some?) &&
       (c.version != 3 || c.time.None?)
    {
      return false;
    }
    var t := c.target;
    if t.kind != "channel" || t.id <= 0 || t.model == "" || t.model != TrimSpace(t.model) || |t.model| > 255 { return false; }
    ok := ValidateTierPrices(c.prices);
    if !ok { return; }
    if c.time.Some? {
      ok := ValidateTimePricing(c.time.value, c.long);
      if !ok { return; }
    }
    if c.upstream.Some? {
      ok := ValidateTierPrices(c.upstream.value);
      if !ok { return; }
    }
    if c.long.Some? {
      ok := ValidateLongContext(c.long.value, c.prices);
    }
  }

  method ValidateTimePricing(t: TimePricing, long: Option<LongContext>) returns (ok: bool)
    ensures ok == TimeValid(t, long)
  {
    hide LongValid, TimeBands.WindowsValid;
    ok := TimeBands.ValidateWindows(t.windows);
    if !ok { return; }
    ok := ValidateComplete(t.peak);
    if !ok { return; }
    ok := ValidateOptional(t.peakUpstream);
    if !ok { return; }
    hide TiersValid;
    if long.None? { return t.peakLong.None? && t.peakLongUpstream.None?; }
    if t.peakLong.None? { return false; }
    ok := ValidateLongContext(PeakLong(t, long.value), t.peak);
  }

  lemma {:induction false} OnlyTiers(prices: Prices)
    requires TiersValid(prices)
    ensures forall t :: t in prices <==> t in TIERS
  {
    var rest := prices.Keys - {TIERS[0], TIERS[1], TIERS[2]};
    assert |prices.Keys| == |prices|;
    assert {TIERS[0], TIERS[1], TIERS[2]} <= prices.Keys;
    assert |{TIERS[0], TIERS[1], TIERS[2]}| == 3;
    assert |rest| == |prices.Keys| - 3;
    forall t | t in prices ensures t in TIERS {
      assert t !in rest;
    }
  }

  // ---- selection ---------------------------------------------------------------------------

  /** The tariffs in force in a time band. */
  function ForTimeBand(c: Config, band: string): Config {
    if c.time.None? || band != "peak" then c else
    var t := c.time.value;
    c.(prices := t.peak, upstream := t.peakUpstream,
       long := if c.long.None? then None else Some(PeakLong(t, c.long.value)))
  }

  /** A request above the threshold is priced as a whole by the long-context tariff. */
  function PricesForInput(c: Config, input: int): Prices {
    if c.long.Some? && input > c.long.value.threshold then c.long.value.prices else c.prices
  }

  function Max(a: real, b: real): real {
    if a < b then b else a
  }

  function Join(a: Rates, p: Rates): Rates {
    Rates(Max(a.input, p.input), Max(a.output, p.output), Max(a.read, p.read), Max(a.create5m, p.create5m), Max(a.create1h, p.create1h))
  }

  /** Each rate is an upper bound of the prices in its bucket, and no higher than it must be. */
  ghost predicate IsMaximum(m: Rates, prices: set<Price>) {
    && NonNegative(m) && (forall p :: p in prices ==> AtMost(RatesOf(p), m))
    && forall bound: Rates :: NonNegative(bound) && (forall p :: p in prices ==> AtMost(RatesOf(p), bound)) ==> AtMost(m, bound)
  }

  /** The per-bucket maximum over the tiers, whatever order a map is walked in. */
  method MaxTierPrice(prices: Prices) returns (m: Price)
    ensures IsMaximum(RatesOf(m), prices.Values)
  {
    var input, output, read, create5m, create1h := 0.0, 0.0, 0.0, 0.0, 0.0;
    var rest := prices.Keys;
    ghost var seen: set<Price> := {};
    while rest != {}
      invariant rest <= prices.Keys
      invariant IsMaximum(Rates(input, output, read, create5m, create1h), seen)
      invariant seen <= prices.Values && forall t :: t in prices && t !in rest ==> prices[t] in seen
      decreases |rest|
    {
      var t :| t in rest;
      var v := prices[t];
      ghost var before := Rates(input, output, read, create5m, create1h);
      input := Max(input, v.input);
      output := Max(output, v.output);
      read := Max(read, if v.read.Some? then v.read.value else v.input);
      if v.create5m.Some? {
        create5m := Max(create5m, v.create5m.value);
      }
      if v.create1h.Some? {
        create1h := Max(create1h, v.create1h.value);
      }
      MaximumGrows(before, seen, v);
      seen := seen + {v};
      rest := rest - {t};
    }
    assert seen == prices.Values;
    m := Price(input, output, Some(read), Some(create5m), Some(create1h));
  }

  lemma MaximumGrows(m: Rates, seen: set<Price>, v: Price)
    requires IsMaximum(m, seen)
    ensures IsMaximum(Join(m, RatesOf(v)), seen + {v})
  {
  }

  /** Every price a request may be charged under. */
  function AllPrices(c: Config): set<Price> {
    c.prices.Values + if c.long.Some? then c.long.value.prices.Values else {}
  }

  method MaximumPrice(c: Config) returns (m: Price)
    ensures IsMaximum(RatesOf(m), AllPrices(c))
  {
    m := MaxTierPrice(c.prices);
    if c.long.None? { return; }
    var long := MaxTierPrice(c.long.value.prices);
    var both: Prices := map["base" := m, "long" := long];
    ghost var base := m;
    m := MaxTierPrice(both);
    assert both["base"] in both.Values && both["long"] in both.Values;
    assert both.Values == {base, long};
    MaximumOfMaxima(RatesOf(base), c.prices.Values, RatesOf(long), c.long.value.prices.Values, RatesOf(m), base, long);
  }

  lemma MaximumOfMaxima(a: Rates, ps: set<Price>, b: Rates, qs: set<Price>, m: Rates, base: Price, long: Price)
    requires IsMaximum(a, ps) && IsMaximum(b, qs) && IsMaximum(m, {base, long}) && RatesOf(base) == a && RatesOf(long) == b
    ensures IsMaximum(m, ps + qs)
  {
  }

  // ---- cost --------------------------------------------------------------------------------

  const MAX: int := 0x7FFF_FFFF_FFFF_FFFF

  /** Quota units per unit of money. */
  const AMOUNT_SCALE: real := 10000.0

  /** Mutually exclusive token counts. */
  datatype Usage = Usage(input: int, output: int, read: int, create5m: int, create1h: int)

  predicate Counted(u: Usage) {
    u.input >= 0 && u.output >= 0 && u.read >= 0 && u.create5m >= 0 && u.create1h >= 0
  }

  /** Nearest whole number, halves upward. */
  function Round(x: real): int {
    (x + 0.5).Floor
  }

  /** One multiplication in floating point. */
  function Times(a: real, b: real): real {
    Double(a * b)
  }

  /** The scaled product, rounded after every multiplication. */
  function Product(tokens: int, price: real, multiplier: real): real {
    Times(Times(Times(Double(tokens as real), price), multiplier), AMOUNT_SCALE)
  }

  /** One bucket in quota units, saturating at the largest 64-bit amount. */
  function Scaled(tokens: int, price: real, multiplier: real): int {
    if tokens <= 0 || price <= 0.0 then 0 else
    var raw := Product(tokens, price, multiplier);
    if raw <= 0.0 then 0 else if Round(raw) >= MAX then MAX else Round(raw)
  }

  function SatSum(values: seq<int>): int {
    if values == [] then 0 else
    var total, v := SatSum(values[..|values| - 1]), values[|values| - 1];
    if total == MAX || v <= 0 then total else if v > MAX - total then MAX else total + v
  }

  /** The sum that would be owed without saturation. */
  function Total(values: seq<int>): int {
    if values == [] then 0 else Total(values[..|values| - 1]) + values[|values| - 1]
  }

  lemma {:induction false} SatSumIsTotal(values: seq<int>)
    requires forall i :: 0 <= i < |values| ==> values[i] >= 0
    ensures Total(values) >= 0 && SatSum(values) == if Total(values) > MAX then MAX else Total(values)
  {
    if values != [] { SatSumIsTotal(values[..|values| - 1]); }
  }

  /** The five-bucket cost of a request. */
  function Cost(r: Rates, u: Usage, multiplier: real): int {
    SatSum([Scaled(u.input, r.input, multiplier), Scaled(u.read, r.read, multiplier), Scaled(u.output, r.output, multiplier),
            Scaled(u.create5m, r.create5m, multiplier), Scaled(u.create1h, r.create1h, multiplier)])
  }

  method SaturatingCostSum(values: seq<int>) returns (total: int)
    ensures total == SatSum(values)
  {
    total := 0;
    for i := 0 to |values|
      invariant total == SatSum(values[..i])
    {
      assert values[..i + 1][..i] == values[..i];
      if values[i] <= 0 { continue; }
      if values[i] > MAX - total {
        MaxAbsorbs(values, i + 1);
        return MAX;
      }
      total := total + values[i];
    }
    assert values[..|values|] == values;
  }

  lemma {:induction false} MaxAbsorbs(values: seq<int>, n: nat)
    requires n <= |values| && SatSum(values[..n]) == MAX
    ensures SatSum(values) == MAX
    decreases |values| - n
  {
    if n == |values| {
      assert values[..n] == values;
    } else {
      assert values[..n + 1][..n] == values[..n];
      MaxAbsorbs(values, n + 1);
    }
  }

  lemma MulMono(a: real, b: real, x: real, y: real)
    requires 0.0 <= a <= b && 0.0 <= x <= y
    ensures 0.0 <= a * x <= b * y
  {
  }

  /** One rounded multiplication keeps order. */
  lemma TimesMono(a: real, b: real, x: real, y: real)
    requires 0.0 <= a <= b && 0.0 <= x <= y
    ensures 0.0 <= Times(a, x) <= Times(b, y)
  {
    MulMono(a, b, x, y);
    DoubleMono(a * x, b * y);
  }

  lemma TimesSign(a: real, x: real)
    requires a >= 0.0
    ensures x >= 0.0 ==> Times(a, x) >= 0.0
    ensures x <= 0.0 ==> Times(a, x) <= 0.0
  {
    if x >= 0.0 { MulMono(0.0, a, 0.0, x); } else { MulMono(0.0, a, 0.0, -x); }
    DoubleSign(a * x);
  }

  lemma ProductMono(t: int, u: int, p: real, q: real, multiplier: real)
    requires 0 <= t <= u && 0.0 <= p <= q && multiplier >= 0.0
    ensures 0.0 <= Product(t, p, multiplier) <= Product(u, q, multiplier)
  {
    hide Double, Times;
    DoubleMono(t as real, u as real);
    var a, b := Times(Double(t as real), p), Times(Double(u as real), q);
    TimesMono(Double(t as real), Double(u as real), p, q);
    TimesMono(a, b, multiplier, multiplier);
    TimesMono(Times(a, multiplier), Times(b, multiplier), AMOUNT_SCALE, AMOUNT_SCALE);
  }

  /** A negative multiplier charges nothing. */
  lemma ProductSign(t: int, p: real, multiplier: real)
    requires t >= 0 && p >= 0.0 && multiplier <= 0.0
    ensures Product(t, p, multiplier) <= 0.0
  {
    DoubleSign(t as real);
    var a := Times(Double(t as real), p);
    TimesSign(Double(t as real), p);
    TimesSign(a, multiplier);
    var b := Times(a, multiplier);
    assert b * AMOUNT_SCALE <= 0.0;
    DoubleSign(b * AMOUNT_SCALE);
    assert Product(t, p, multiplier) == Times(b, AMOUNT_SCALE);
    hide Double;
  }

  lemma ScaledMono(t: int, u: int, p: real, q: real, multiplier: real)
    requires t <= u && p <= q
    ensures 0 <= Scaled(t, p, multiplier) <= Scaled(u, q, multiplier) <= MAX
  {
    hide Product;
    if t > 0 && p > 0.0 {
      if multiplier >= 0.0 { ProductMono(t, u, p, q, multiplier); } else { ProductSign(t, p, multiplier); }
    }
  }

  lemma ScaledRange(u: int, q: real, multiplier: real)
    ensures 0 <= Scaled(u, q, multiplier) <= MAX
  {
  }

  method CalculateCanonicalCost(price: Price, u: Usage, multiplier: real) returns (cost: int)
    ensures cost == Cost(RatesOf(price), u, multiplier)
  {
    var readPrice := price.input;
    if price.read.Some? {
      readPrice := price.read.value;
    }
    var create5m, create1h := 0, 0;
    if u.create5m > 0 && price.create5m.Some? {
      create5m := Scaled(u.create5m, price.create5m.value, multiplier);
    }
    if u.create1h > 0 && price.create1h.Some? {
      create1h := Scaled(u.create1h, price.create1h.value, multiplier);
    }
    cost := SaturatingCostSum([Scaled(u.input, price.input, multiplier), Scaled(u.read, readPrice, multiplier),
                               Scaled(u.output, price.output, multiplier), create5m, create1h]);
  }

  predicate NoMoreThan(u: Usage, v: Usage) {
    u.input <= v.input && u.output <= v.output && u.read <= v.read && u.create5m <= v.create5m && u.create1h <= v.create1h
  }

  lemma {:induction false} SatSumMono(a: seq<int>, b: seq<int>)
    requires |a| == |b| && forall i :: 0 <= i < |a| ==> 0 <= a[i] <= b[i]
    ensures 0 <= SatSum(a) <= SatSum(b) <= MAX
  {
    if a != [] { SatSumMono(a[..|a| - 1], b[..|b| - 1]); }
  }

  /** Neither a higher rate nor more usage ever costs less. */
  lemma CostMono(r: Rates, q: Rates, u: Usage, v: Usage, multiplier: real)
    requires AtMost(r, q) && NoMoreThan(u, v)
    ensures 0 <= Cost(r, u, multiplier) <= Cost(q, v, multiplier) <= MAX
  {
    ScaledMono(u.input, v.input, r.input, q.input, multiplier);
    ScaledMono(u.read, v.read, r.read, q.read, multiplier);
    ScaledMono(u.output, v.output, r.output, q.output, multiplier);
    ScaledMono(u.create5m, v.create5m, r.create5m, q.create5m, multiplier);
    ScaledMono(u.create1h, v.create1h, r.create1h, q.create1h, multiplier);
    hide Scaled;
    SatSumMono([Scaled(u.input, r.input, multiplier), Scaled(u.read, r.read, multiplier), Scaled(u.output, r.output, multiplier),
                Scaled(u.create5m, r.create5m, multiplier), Scaled(u.create1h, r.create1h, multiplier)],
               [Scaled(v.input, q.input, multiplier), Scaled(v.read, q.read, multiplier), Scaled(v.output, q.output, multiplier),
                Scaled(v.create5m, q.create5m, multiplier), Scaled(v.create1h, q.create1h, multiplier)]);
  }

  /** The tokens that count towards the threshold: all input, whichever bucket it is in. */
  function ContextInput(u: Usage): int {
    SatSum([u.input, u.read, u.create5m, u.create1h])
  }

  lemma ContextMono(u: Usage, v: Usage)
    requires Counted(u) && NoMoreThan(u, v)
    ensures ContextInput(u) <= ContextInput(v)
  {
    SatSumMono([u.input, u.read, u.create5m, u.create1h], [v.input, v.read, v.create5m, v.create1h]);
  }

  /** A valid configuration stays valid in either time band. */
  lemma BandValid(c: Config, band: string)
    requires Valid(c)
    ensures var b := ForTimeBand(c, band); TiersValid(b.prices) && (b.long.Some? ==> LongValid(b.long.value, b.prices))
  {
  }

  lemma SelectedPrice(c: Config, band: string, tier: string, input: int)
    requires Valid(c) && tier in TIERS
    ensures var b := ForTimeBand(c, band);
            && tier in PricesForInput(b, input) && PricesForInput(b, input)[tier] in AllPrices(b)
  {
    BandValid(c, band);
    var b := ForTimeBand(c, band);
    OnlyTiers(b.prices);
    if b.long.Some? { OnlyTiers(b.long.value.prices); }
    hide TiersValid, TiersComplete;
  }

  /** What a request costs: the tariff of its band, picked by its own input, in its tier. */
  function ChargeOf(c: Config, band: string, tier: string, u: Usage, multiplier: real): int
    requires Valid(c) && tier in TIERS
  {
    SelectedPrice(c, band, tier, ContextInput(u));
    Cost(RatesOf(PricesForInput(ForTimeBand(c, band), ContextInput(u))[tier]), u, multiplier)
  }

  /** The maximum price bounds the cost under every tier and every input size, in each band. */
  lemma MaximumBoundsCost(c: Config, band: string, tier: string, u: Usage, multiplier: real, m: Rates)
    requires Valid(c) && tier in TIERS && IsMaximum(m, AllPrices(ForTimeBand(c, band)))
    ensures ChargeOf(c, band, tier, u, multiplier) <= Cost(m, u, multiplier)
  {
    SelectedPrice(c, band, tier, ContextInput(u));
    hide Cost, Valid, ForTimeBand, PricesForInput, AllPrices;
    var price := PricesForInput(ForTimeBand(c, band), ContextInput(u))[tier];
    CostMono(RatesOf(price), m, u, u, multiplier);
  }

  /** Cost never falls as usage grows, not even where the long-context tariff sets in. */
  lemma MoreUsageCostsNoLess(c: Config, band: string, tier: string, u: Usage, v: Usage, multiplier: real)
    requires Valid(c) && tier in TIERS && Counted(u) && NoMoreThan(u, v)
    ensures ChargeOf(c, band, tier, u, multiplier) <= ChargeOf(c, band, tier, v, multiplier)
  {
    ContextMono(u, v);
    var b := ForTimeBand(c, band);
    BandValid(c, band);
    SelectedPrice(c, band, tier, ContextInput(u));
    SelectedPrice(c, band, tier, ContextInput(v));
    OnlyTiers(b.prices);
    hide Cost, Valid, ForTimeBand, ContextInput, TiersValid, TiersComplete;
    var p, q := PricesForInput(b, ContextInput(u))[tier], PricesForInput(b, ContextInput(v))[tier];
    assert AtMost(RatesOf(p), RatesOf(q));
    CostMono(RatesOf(p), RatesOf(q), u, v, multiplier);
  }

  /** The rates a request can be charged at: those of a reported tier, or, when no known tier
      was reported, the maximum over the tiers of the tariff its input selects. */
  ghost predicate Billable(c: Config, band: string, u: Usage, r: Rates) {
    var prices := PricesForInput(ForTimeBand(c, band), ContextInput(u));
    (exists i :: 0 <= i < |TIERS| && TIERS[i] in prices && r == RatesOf(prices[TIERS[i]])) || IsMaximum(r, prices.Values)
  }

  lemma BillableAtMost(c: Config, band: string, u: Usage, r: Rates, m: Rates)
    requires Billable(c, band, u, r) && IsMaximum(m, AllPrices(ForTimeBand(c, band)))
    ensures AtMost(r, m)
  {
    var b := ForTimeBand(c, band);
    var prices := PricesForInput(b, ContextInput(u));
    forall p | p in prices.Values ensures AtMost(RatesOf(p), m) {
      assert p in AllPrices(b);
    }
    hide ForTimeBand, PricesForInput, AllPrices, ContextInput;
    if i :| 0 <= i < |TIERS| && TIERS[i] in prices && r == RatesOf(prices[TIERS[i]]) {
      assert prices[TIERS[i]] in prices.Values;
    }
  }

  // ---- the reservation -----------------------------------------------------------------------

  function HighestInput(m: Rates): real {
    Max(Max(Max(m.input, m.read), m.create5m), m.create1h)
  }

  function ReservedBase(m: Rates, inputBound: int, outputBound: int, multiplier: real): int {
    SatSum([Scaled(inputBound, HighestInput(m), multiplier), Scaled(outputBound, m.output, multiplier)])
  }

  function Reservation(base: int): int {
    var padded := if base < MAX - 4 then base + 4 else base;
    if padded < 1 then 1 else padded
  }

  /** The amount set aside before the answer is known, from bounds on input and output, and
      the maximum price it rests on. */
  method Reserve(c: Config, band: string, inputBound: int, outputBound: int, multiplier: real) returns (cost: int, maximum: Price)
    ensures IsMaximum(RatesOf(maximum), AllPrices(ForTimeBand(c, band)))
    ensures cost == Reservation(ReservedBase(RatesOf(maximum), inputBound, outputBound, multiplier))
  {
    maximum := MaximumPrice(ForTimeBand(c, band));
    var maxInput := maximum.input;
    maxInput := Max(maxInput, if maximum.read.Some? then maximum.read.value else maximum.input);
    maxInput := Max(maxInput, if maximum.create5m.Some? then maximum.create5m.value else 0.0);
    maxInput := Max(maxInput, if maximum.create1h.Some? then maximum.create1h.value else 0.0);
    cost := SaturatingCostSum([Scaled(inputBound, maxInput, multiplier), Scaled(outputBound, maximum.output, multiplier)]);
    if cost < MAX - 4 {
      cost := cost + 4;
    }
    if cost < 1 {
      cost := 1;
    }
  }

  // ---- how far rounding can go ----------------------------------------------------------------

  /** y is x up to a relative error. */
  predicate Within(x: real, y: real, e: real) {
    x - x * e <= y <= x + x * e
  }

  lemma WithinOnce(x: real, y: real)
    requires x >= 0.0 && Within(x, y, UNIT)
    ensures y >= 0.0 && forall z :: Near(y, z) ==> Within(x, z, 2.5 * UNIT)
  {
  }

  lemma WithinTwice(x: real, y: real)
    requires x >= 0.0 && Within(x, y, 2.5 * UNIT)
    ensures y >= 0.0 && forall z :: Near(y, z) ==> Within(x, z, 4.0 * UNIT)
  {
  }

  lemma WithinTimes(x: real, y: real, e: real, k: real)
    requires Within(x, y, e) && k >= 0.0
    ensures Within(x * k, y * k, e)
  {
    assert (x - x * e) * k <= y * k <= (x + x * e) * k;
    assert (x - x * e) * k == x * k - (x * k) * e && (x + x * e) * k == x * k + (x * k) * e;
  }

  function Exact(tokens: int, rate: real): real {
    tokens as real * rate
  }

  function PerToken(price: real, multiplier: real): real {
    price * multiplier * AMOUNT_SCALE
  }

  function Mul(a: real, b: real): real {
    a * b
  }

  lemma FirstTimes(x: real, k: real)
    requires x >= 0.0 && k >= 0.0
    ensures Mul(x, k) >= 0.0 && Within(Mul(x, k), Times(x, k), UNIT)
  {
    MulMono(0.0, x, 0.0, k);
    DoubleNear(x * k);
  }

  lemma SecondTimes(x: real, y: real, k: real)
    requires x >= 0.0 && k >= 0.0 && Within(x, y, UNIT)
    ensures Mul(x, k) >= 0.0 && Within(Mul(x, k), Times(y, k), 2.5 * UNIT)
  {
    hide Within, Near, Double;
    MulMono(0.0, x, 0.0, k);
    WithinTimes(x, y, UNIT, k);
    WithinOnce(x * k, y * k);
    DoubleNear(y * k);
  }

  lemma ThirdTimes(x: real, y: real, k: real)
    requires x >= 0.0 && k >= 0.0 && Within(x, y, 2.5 * UNIT)
    ensures Within(Mul(x, k), Times(y, k), 4.0 * UNIT)
  {
    hide Within, Near, Double;
    MulMono(0.0, x, 0.0, k);
    WithinTimes(x, y, 2.5 * UNIT, k);
    WithinTwice(x * k, y * k);
    DoubleNear(y * k);
  }

  /** Three roundings after an exact token count: less than one part in 2^51. */
  lemma ProductNear(t: int, p: real, multiplier: real)
    requires 0 <= t <= 9007199254740992 && p >= 0.0 && multiplier >= 0.0
    ensures Within(Exact(t, PerToken(p, multiplier)), Product(t, p, multiplier), 4.0 * UNIT)
  {
    ExactIs(t, p, multiplier);
    hide Double, Within, Times, Mul, Exact, PerToken;
    DoubleExact(t);
    var x, a := Mul(t as real, p), Times(t as real, p);
    FirstTimes(t as real, p);
    SecondTimes(x, a, multiplier);
    ThirdTimes(Mul(x, multiplier), Times(a, multiplier), AMOUNT_SCALE);
  }

  lemma ExactIs(t: int, p: real, multiplier: real)
    ensures Exact(t, PerToken(p, multiplier)) == Mul(Mul(Mul(t as real, p), multiplier), AMOUNT_SCALE)
  {
  }

  lemma PerTokenMono(t: int, p: real, q: real, multiplier: real)
    requires t >= 0 && 0.0 <= p <= q && multiplier >= 0.0
    ensures 0.0 <= Exact(t, PerToken(p, multiplier)) <= Exact(t, PerToken(q, multiplier))
  {
    MulMono(p, q, multiplier, multiplier);
    MulMono(p * multiplier, q * multiplier, AMOUNT_SCALE, AMOUNT_SCALE);
    MulMono(t as real, t as real, p * multiplier * AMOUNT_SCALE, q * multiplier * AMOUNT_SCALE);
  }

  /** A bucket costs at most half a unit and the error of its product more than its exact price. */
  lemma ScaledAbove(t: int, p: real, unit: real, multiplier: real)
    requires 0 <= t <= 0x7FFF_FFFF && 0.0 <= p <= unit && multiplier >= 0.0
    ensures var exact := Exact(t, PerToken(unit, multiplier));
            exact >= 0.0 && Scaled(t, p, multiplier) as real <= exact + exact * (4.0 * UNIT) + 0.5
  {
    PerTokenMono(t, p, unit, multiplier);
    ProductNear(t, p, multiplier);
    hide Product, Exact, PerToken;
    assert Scaled(t, p, multiplier) as real <= (if Product(t, p, multiplier) <= 0.0 then 0.0 else Product(t, p, multiplier)) + 0.5;
  }

  lemma ScaledBelow(t: int, unit: real, multiplier: real)
    requires 0 <= t <= 0x7FFF_FFFF && unit >= 0.0 && multiplier >= 0.0 && Scaled(t, unit, multiplier) < MAX
    ensures var exact := Exact(t, PerToken(unit, multiplier));
            exact - exact * (4.0 * UNIT) <= Scaled(t, unit, multiplier) as real + 0.5
    ensures PerToken(unit, multiplier) >= 0.0
  {
    PerTokenMono(1, unit, unit, multiplier);
    ProductNear(t, unit, multiplier);
    assert t == 0 || unit == 0.0 ==> Exact(t, PerToken(unit, multiplier)) == 0.0;
    hide Product, Exact, PerToken;
  }

  /** Four rounded amounts against the rounding of something no smaller than their sum. */
  lemma RoundedSum(a: int, b: int, c: int, d: int, w: real, x: real, y: real, z: real, all: real, rounded: int)
    requires a as real <= w + w * (4.0 * UNIT) + 0.5 && b as real <= x + x * (4.0 * UNIT) + 0.5
    requires c as real <= y + y * (4.0 * UNIT) + 0.5 && d as real <= z + z * (4.0 * UNIT) + 0.5
    requires w + x + y + z <= all && all - all * (4.0 * UNIT) <= rounded as real + 0.5
    requires rounded <= SAFE
    ensures a + b + c + d <= rounded + 4
  {
  }

  /** 2^51: up to here rounding errors stay within the padding. */
  const SAFE: int := 2251799813685248

  lemma Distribute(a: int, b: int, c: int, d: int, bound: int, k: real)
    requires a + b + c + d <= bound && k >= 0.0
    ensures Exact(a, k) + Exact(b, k) + Exact(c, k) + Exact(d, k) <= Exact(bound, k)
  {
    var sum := a + b + c + d;
    assert sum as real * k == a as real * k + b as real * k + c as real * k + d as real * k;
    assert (bound - sum) as real * k >= 0.0;
    assert bound as real * k == sum as real * k + (bound - sum) as real * k;
  }

  /** Rounding four input buckets one by one, product by product, adds at most four units to
      rounding their sum at the highest price, for amounts up to 2^51. */
  lemma InputBuckets(m: Rates, u: Usage, bound: int, multiplier: real)
    requires NonNegative(m) && Counted(u) && u.input + u.read + u.create5m + u.create1h <= bound <= 0x7FFF_FFFF && multiplier >= 0.0
    requires Scaled(bound, HighestInput(m), multiplier) <= SAFE
    ensures Scaled(u.input, m.input, multiplier) + Scaled(u.read, m.read, multiplier) + Scaled(u.create5m, m.create5m, multiplier)
            + Scaled(u.create1h, m.create1h, multiplier) <= Scaled(bound, HighestInput(m), multiplier) + 4
  {
    hide Scaled, Exact, PerToken;
    var h := HighestInput(m);
    var k := PerToken(h, multiplier);
    ScaledAbove(u.input, m.input, h, multiplier);
    ScaledAbove(u.read, m.read, h, multiplier);
    ScaledAbove(u.create5m, m.create5m, h, multiplier);
    ScaledAbove(u.create1h, m.create1h, h, multiplier);
    ScaledBelow(bound, h, multiplier);
    Distribute(u.input, u.read, u.create5m, u.create1h, bound, k);
    RoundedSum(Scaled(u.input, m.input, multiplier), Scaled(u.read, m.read, multiplier), Scaled(u.create5m, m.create5m, multiplier),
               Scaled(u.create1h, m.create1h, multiplier), Exact(u.input, k), Exact(u.read, k), Exact(u.create5m, k),
               Exact(u.create1h, k), Exact(bound, k), Scaled(bound, h, multiplier));
  }

  lemma {:induction false} ContextMeans(u: Usage, bound: int)
    requires Counted(u) && ContextInput(u) <= bound < MAX
    ensures u.input + u.read + u.create5m + u.create1h == ContextInput(u)
  {
    var v := [u.input, u.read, u.create5m, u.create1h];
    SatSumIsTotal(v);
    TotalOf4(u.input, u.read, u.create5m, u.create1h);
  }

  lemma TotalOne(values: seq<int>, v: int)
    ensures Total(values + [v]) == Total(values) + v
  {
    assert (values + [v])[..|values|] == values;
  }

  lemma TotalOf4(a: int, b: int, c: int, d: int)
    ensures Total([a, b, c, d]) == a + b + c + d
  {
    TotalOf2(a, b);
    TotalOne([a, b], c);
    TotalOne([a, b] + [c], d);
    assert [a, b] + [c] + [d] == [a, b, c, d];
  }

  lemma TotalOf5(a: int, b: int, c: int, d: int, e: int)
    ensures Total([a, b, c, d, e]) == a + b + c + d + e
  {
    TotalOf4(a, b, c, d);
    TotalOne([a, b, c, d], e);
    assert [a, b, c, d] + [e] == [a, b, c, d, e];
  }

  lemma TotalOf2(a: int, b: int)
    ensures Total([a, b]) == a + b
  {
    TotalOne([], a);
    TotalOne([] + [a], b);
    assert [] + [a] + [b] == [a, b];
  }

  /** The cost at the maximum price against the base of the reservation. */
  lemma CostWithinBase(m: Rates, u: Usage, inputBound: int, outputBound: int, multiplier: real)
    requires NonNegative(m) && Counted(u) && multiplier >= 0.0
    requires ContextInput(u) <= inputBound <= 0x7FFF_FFFF && u.output <= outputBound
    ensures var base := ReservedBase(m, inputBound, outputBound, multiplier);
            && (base <= SAFE ==> Cost(m, u, multiplier) <= base + 4)
            && Cost(m, u, multiplier) <= MAX
  {
    var a, b, c := Scaled(u.input, m.input, multiplier), Scaled(u.read, m.read, multiplier), Scaled(u.output, m.output, multiplier);
    var d, e := Scaled(u.create5m, m.create5m, multiplier), Scaled(u.create1h, m.create1h, multiplier);
    var x, y := Scaled(inputBound, HighestInput(m), multiplier), Scaled(outputBound, m.output, multiplier);
    ScaledRange(u.input, m.input, multiplier);
    ScaledRange(u.read, m.read, multiplier);
    ScaledRange(u.create5m, m.create5m, multiplier);
    ScaledRange(u.create1h, m.create1h, multiplier);
    ScaledRange(inputBound, HighestInput(m), multiplier);
    ScaledMono(u.output, outputBound, m.output, m.output, multiplier);
    ContextMeans(u, inputBound);
    if x <= SAFE { InputBuckets(m, u, inputBound, multiplier); }
    hide Scaled;
    TotalOf5(a, b, c, d, e);
    TotalOf2(x, y);
    SatSumIsTotal([a, b, c, d, e]);
    SatSumIsTotal([x, y]);
    hide SatSum, Total;
  }

  /** What was reserved covers the charge: under every tier or the fallback for an unknown one,
      on either side of the threshold, in the band of the reservation, for every usage within
      the bounds, whatever the products are rounded to; for reservations of up to 2^51 units,
      and for saturated ones. */
  lemma ReservationCovers(c: Config, band: string, u: Usage, r: Rates, inputBound: int, outputBound: int, multiplier: real, m: Rates)
    requires Billable(c, band, u, r) && IsMaximum(m, AllPrices(ForTimeBand(c, band)))
    requires Counted(u) && ContextInput(u) <= inputBound <= 0x7FFF_FFFF && u.output <= outputBound && multiplier >= 0.0
    ensures var base := ReservedBase(m, inputBound, outputBound, multiplier);
            base <= SAFE || base == MAX ==> Cost(r, u, multiplier) <= Reservation(base)
  {
    BillableAtMost(c, band, u, r, m);
    CostMono(r, m, u, u, multiplier);
    CostWithinBase(m, u, inputBound, outputBound, multiplier);
    hide Cost, ReservedBase, ForTimeBand, AllPrices, ContextInput, Billable;
  }

  // ---- where the padding is not enough ---------------------------------------------------------

  /** A tariff with one whole-number price per input token. */
  function FlatConfig(price: int): Config {
    var p := Price(price as real, 0.0, Some(price as real), None, None);
    Config(true, 1, Target("channel", 1, "m"), map["default" := p, "priority" := p, "flex" := p], None, None, None)
  }

  lemma FlatTargetValid()
    ensures TargetValid(Target("channel", 1, "m"))
  {
    assert !IsSpace('m') && TrimLeft("m") == "m" && TrimRight("m") == "m";
    hide IsSpace;
  }

  lemma FlatTiersValid(prices: Prices, p: Price)
    requires prices == map["default" := p, "priority" := p, "flex" := p] && PriceValid(p)
    ensures TiersValid(prices)
  {
    assert prices.Keys == {"default", "priority", "flex"};
    assert "default" != "priority" && "default" != "flex" && "priority" != "flex";
    assert |prices| == |prices.Keys|;
    assert TIERS[0] == "default" && TIERS[1] == "priority" && TIERS[2] == "flex";
    hide PriceValid;
  }

  lemma FlatConfigValid(price: int)
    requires price >= 0
    ensures Valid(FlatConfig(price))
  {
    hide TargetValid, TiersValid;
    FlatTargetValid();
    var p := Price(price as real, 0.0, Some(price as real), None, None);
    FlatTiersValid(FlatConfig(price).prices, p);
  }

  function FlatRates(price: int): Rates {
    Rates(price as real, 0.0, price as real, 0.0, 0.0)
  }

  lemma FlatMaximum(price: int)
    requires price >= 0
    ensures IsMaximum(FlatRates(price), AllPrices(FlatConfig(price)))
  {
    var c := FlatConfig(price);
    var p := c.prices["default"];
    assert p in c.prices.Values && forall q :: q in c.prices.Values ==> q == p;
    assert RatesOf(p) == FlatRates(price);
    assert AllPrices(c) == c.prices.Values + {};
    assert p in AllPrices(c);
  }

  /** Two buckets of 40000003 and 40000007 tokens at 1000001 units of money a token: each
      product goes up to the next multiple of 64, their sum down to one of 128. */
  lemma ReservationFallsShort()
    ensures var c, u, r := FlatConfig(1000001), Usage(40000003, 0, 40000007, 0, 0), FlatRates(1000001);
            && Valid(c) && Counted(u) && ContextInput(u) == 80000010
            && Billable(c, "", u, r) && IsMaximum(r, AllPrices(ForTimeBand(c, "")))
            && Cost(r, u, 1.0) == 800000900000100032
            && Reservation(ReservedBase(r, 80000010, 1, 1.0)) == 800000900000099972
  {
    FlatConfigValid(1000001);
    FlatMaximum(1000001);
    FlatBillable();
    FlatInput();
    FlatCost();
    FlatBase();
    hide Valid, Billable, IsMaximum, Cost, ReservedBase, ContextInput;
  }

  lemma FlatInput()
    ensures ContextInput(Usage(40000003, 0, 40000007, 0, 0)) == 80000010
  {
    TotalOf4(40000003, 40000007, 0, 0);
    SatSumIsTotal([40000003, 40000007, 0, 0]);
  }

  lemma FlatCost()
    ensures Cost(FlatRates(1000001), Usage(40000003, 0, 40000007, 0, 0), 1.0) == 800000900000100032
  {
    FlatScaled();
    var a, b := 400000430000030016, 400000470000070016;
    TotalOf5(a, b, 0, 0, 0);
    SatSumIsTotal([a, b, 0, 0, 0]);
    hide Scaled, SatSum, Total;
  }

  lemma FlatBase()
    ensures ReservedBase(FlatRates(1000001), 80000010, 1, 1.0) == 800000900000099968
  {
    FlatScaled();
    TotalOf2(800000900000099968, 0);
    SatSumIsTotal([800000900000099968, 0]);
    hide Scaled, SatSum, Total;
  }

  lemma FlatBillable()
    ensures Billable(FlatConfig(1000001), "", Usage(40000003, 0, 40000007, 0, 0), FlatRates(1000001))
  {
    var c := FlatConfig(1000001);
    assert TIERS[0] == "default" && TIERS[0] in c.prices && FlatRates(1000001) == RatesOf(c.prices[TIERS[0]]);
  }

  lemma FlatScaled()
    ensures Scaled(40000003, 1000001.0, 1.0) == 400000430000030016
    ensures Scaled(40000007, 1000001.0, 1.0) == 400000470000070016
    ensures Scaled(80000010, 1000001.0, 1.0) == 800000900000099968
    ensures Scaled(0, 0.0, 1.0) == 0 && Scaled(1, 0.0, 1.0) == 0 && Scaled(0, 1000001.0, 1.0) == 0
  {
    FlatProduct(40000003);
    FlatProduct(40000007);
    FlatProduct(80000010);
    RoundLarge64(6250006718750468.75);
    RoundLarge64(6250007343751093.75);
    RoundLarge128(6250007031250781.25);
    hide Double, RoundLarge, Product;
  }

  /** Token count and price are whole, so only the last product is rounded. */
  lemma FlatProduct(t: int)
    requires 0 <= t <= 100000000
    ensures Product(t, 1000001.0, 1.0) == Double(t as real * 10000010000.0)
  {
    DoubleExact(t);
    DoubleExact(t * 1000001);
    assert t as real * 1000001.0 == (t * 1000001) as real;
    hide Double;
  }

  lemma RoundLarge64(y: real)
    requires TWO52 < y < TWO53
    ensures Double(64.0 * y) == 64.0 * RoundEven(y) as real
  {
    assert RoundLarge(2.0 * y) == 2.0 * RoundLarge(2.0 * y / 2.0);
    assert RoundLarge(4.0 * y) == 2.0 * RoundLarge(4.0 * y / 2.0);
    assert RoundLarge(8.0 * y) == 2.0 * RoundLarge(8.0 * y / 2.0);
    assert RoundLarge(16.0 * y) == 2.0 * RoundLarge(16.0 * y / 2.0);
    assert RoundLarge(32.0 * y) == 2.0 * RoundLarge(32.0 * y / 2.0);
    assert RoundLarge(64.0 * y) == 2.0 * RoundLarge(64.0 * y / 2.0);
    hide RoundEven;
  }

  lemma RoundLarge128(y: real)
    requires TWO52 < y < TWO53
    ensures Double(128.0 * y) == 128.0 * RoundEven(y) as real
  {
    RoundLarge64(y);
    assert RoundLarge(128.0 * y) == 2.0 * RoundLarge(128.0 * y / 2.0);
    hide RoundEven;
  }
}
