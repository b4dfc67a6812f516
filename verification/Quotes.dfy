/** The quote engine: the single rounding point of the platform. */
module Quotes {
  import opened Sums
  import opened Books

  const MG_PER_GRAM: int := 1000
  const QUOTE_TTL_MS: int := 30_000

  // Dealer spread per side; the environment allows 0 to 1000 basis points.
  type SpreadBps = n: int | 0 <= n <= 1000

  datatype FeeConfig = FeeConfig(commissionPctMilli: nat, serviceFeeCents: nat, taxPctMilli: nat, reforestPctMilli: nat)
  datatype FeeBreakdown = FeeBreakdown(fee: nat, tax: nat, reforest: nat)

  datatype Amount = InGrams(mg: nat) | InEtb(cents: nat)
  // The newest price tick of the metal, its age, and the configuration a quote is computed from.
  datatype Market = Market(mid: nat, ageSeconds: nat, maxAgeSeconds: nat, suspect: bool, spread: SpreadBps,
                           fees: FeeConfig)
  datatype Error = StalePrice | PriceUnverified | AmountTooSmall | DivisionByZero
  datatype Priced = Ok(terms: Terms) | Err(error: Error)

  function ComputeFees(subtotal: nat, cfg: FeeConfig): FeeBreakdown {
    FeeBreakdown(
      subtotal * cfg.commissionPctMilli / 100_000 + cfg.serviceFeeCents,
      subtotal * cfg.taxPctMilli / 100_000,
      subtotal * cfg.reforestPctMilli / 100_000)
  }

  function UnitPrice(side: Side, market: Market): nat
  {
    var spread := market.mid * market.spread / 10_000;
    SpreadWithinMid(market.mid, market.spread);
    if side == Buy then market.mid + spread else market.mid - spread
  }

  lemma SpreadWithinMid(mid: nat, spread: SpreadBps)
    ensures 0 <= mid * spread / 10_000 <= mid
  {
    assert mid * spread <= mid * 10_000;
  }

  function Subtotal(unit: nat, gramsMg: nat): nat {
    unit * gramsMg / MG_PER_GRAM
  }

  // Price one request. All operands are non-negative, so truncation is the floor.
  function Price(side: Side, metal: Metal, amount: Amount, market: Market): (r: Priced)
    ensures r.Ok? ==> WellPriced(r.terms) && r.terms.side == side && r.terms.metal == metal
  {
    var unit := UnitPrice(side, market);
    if market.ageSeconds > market.maxAgeSeconds then Err(StalePrice)
    else if market.suspect then Err(PriceUnverified)
    else if amount.InEtb? && unit == 0 then Err(DivisionByZero)
    else
      var grams := if amount.InGrams? then amount.mg else amount.cents * MG_PER_GRAM / unit;
      if grams <= 0 then Err(AmountTooSmall)
      else
        var subtotal := Subtotal(unit, grams);
        if subtotal <= 0 then Err(AmountTooSmall)
        else
          var f := ComputeFees(subtotal, market.fees);
          var total := if side == Buy then subtotal + f.fee + f.tax + f.reforest
                       else subtotal - f.fee - f.tax - f.reforest;
          if side == Sell && total <= 0 then Err(AmountTooSmall)
          else Ok(Terms(side, metal, grams, subtotal, f.fee, f.tax, f.reforest, total))
  }

  lemma DivBounds(x: int, d: int)
    requires d > 0
    ensures d * (x / d) <= x < d * (x / d) + d
  {
  }

  // ---------------------------------------------------------------- what a price is

  // `part` is the rate's share of `whole`, rounded down. Rates are thousandths of a percent.
  predicate IsShare(part: int, whole: int, pctMilli: int) {
    100_000 * part <= whole * pctMilli < 100_000 * part + 100_000
  }

  // The spread moves the unit price away from the middle, up for a buyer and down for a seller.
  predicate IsUnit(unit: int, side: Side, market: Market) {
    var away := if side == Buy then unit - market.mid else market.mid - unit;
    10_000 * away <= market.mid * market.spread < 10_000 * away + 10_000
  }

  // A request in grams gets those grams; one in birr the most whole milligrams the birr buy.
  predicate AreGrams(grams: int, amount: Amount, unit: int) {
    match amount
    case InGrams(mg) => grams == mg
    case InEtb(cents) => unit * grams <= 1_000 * cents < unit * grams + unit
  }

  predicate PricedRight(unit: nat, t: Terms, side: Side, metal: Metal, amount: Amount, market: Market) {
    && t.side == side && t.metal == metal
    && IsUnit(unit, side, market) && AreGrams(t.gramsMg, amount, unit) && t.gramsMg > 0
    && 1_000 * t.subtotal <= unit * t.gramsMg < 1_000 * t.subtotal + 1_000 && t.subtotal > 0
    && IsShare(t.fee - market.fees.serviceFeeCents, t.subtotal, market.fees.commissionPctMilli)
    && IsShare(t.tax, t.subtotal, market.fees.taxPctMilli)
    && IsShare(t.reforest, t.subtotal, market.fees.reforestPctMilli)
    && (side == Buy ==> t.total - t.subtotal == t.fee + t.tax + t.reforest)
    && (side == Sell ==> t.subtotal - t.total == t.fee + t.tax + t.reforest && t.total > 0)
  }

  lemma MulMonotone(d: int, low: int, high: int)
    requires d > 0
    ensures low <= high ==> d * low <= d * high
  {
    if low <= high {
      assert d * (high - low) >= 0;
    }
  }

  lemma IsFloor(x: int, d: int, q: int)
    requires d > 0
    ensures q == x / d <==> d * q <= x < d * q + d
  {
    DivBounds(x, d);
    var r := x / d;
    MulMonotone(d, q + 1, r);
    MulMonotone(d, r + 1, q);
    assert d * (q + 1) == d * q + d && d * (r + 1) == d * r + d;
  }

  lemma UnitIs(side: Side, market: Market, unit: int)
    ensures IsUnit(unit, side, market) <==> unit == UnitPrice(side, market)
  {
    var away := if side == Buy then unit - market.mid else market.mid - unit;
    IsFloor(market.mid * market.spread, 10_000, away);
  }

  lemma FeesAre(subtotal: nat, cfg: FeeConfig, fee: int, tax: int, reforest: int)
    ensures var f := ComputeFees(subtotal, cfg);
            && (IsShare(fee - cfg.serviceFeeCents, subtotal, cfg.commissionPctMilli) <==> fee == f.fee)
            && (IsShare(tax, subtotal, cfg.taxPctMilli) <==> tax == f.tax)
            && (IsShare(reforest, subtotal, cfg.reforestPctMilli) <==> reforest == f.reforest)
  {
    IsFloor(subtotal * cfg.commissionPctMilli, 100_000, fee - cfg.serviceFeeCents);
    IsFloor(subtotal * cfg.taxPctMilli, 100_000, tax);
    IsFloor(subtotal * cfg.reforestPctMilli, 100_000, reforest);
  }

  // A request gets exactly the figures that are right by the newest tick, and gets them exactly when the tick is
  // fresh and vouched for and such figures exist.
  lemma PriceIsExactly(side: Side, metal: Metal, amount: Amount, market: Market, t: Terms)
    ensures Price(side, metal, amount, market) == Ok(t) <==>
            && market.ageSeconds <= market.maxAgeSeconds && !market.suspect
            && exists unit: nat :: PricedRight(unit, t, side, metal, amount, market)
    ensures Price(side, metal, amount, market) == Err(StalePrice) <==> market.ageSeconds > market.maxAgeSeconds
    ensures Price(side, metal, amount, market) == Err(PriceUnverified) <==>
            market.ageSeconds <= market.maxAgeSeconds && market.suspect
  {
    var unit := UnitPrice(side, market);
    UnitIs(side, market, unit);
    if Price(side, metal, amount, market) == Ok(t) {
      FiguresAre(unit, t.gramsMg, t.subtotal, amount);
      FeesAre(t.subtotal, market.fees, t.fee, t.tax, t.reforest);
      assert PricedRight(unit, t, side, metal, amount, market);
    }
    if market.ageSeconds <= market.maxAgeSeconds && !market.suspect {
      if right: nat :| PricedRight(right, t, side, metal, amount, market) {
        UnitIs(side, market, right);
        FiguresAre(unit, t.gramsMg, t.subtotal, amount);
        FeesAre(t.subtotal, market.fees, t.fee, t.tax, t.reforest);
      }
    }
  }

  lemma FiguresAre(unit: nat, grams: nat, subtotal: int, amount: Amount)
    ensures amount.InEtb? && unit > 0 ==>
              (AreGrams(grams, amount, unit) <==> grams == amount.cents * MG_PER_GRAM / unit)
    ensures 1_000 * subtotal <= unit * grams < 1_000 * subtotal + 1_000 <==> subtotal == Subtotal(unit, grams)
    ensures amount.InEtb? && unit == 0 ==> !AreGrams(grams, amount, unit)
  {
    IsFloor(unit * grams, 1_000, subtotal);
    if amount.InEtb? && unit > 0 {
      IsFloor(amount.cents * 1_000, unit, grams);
    }
  }

  // ---------------------------------------------------------------- what follows

  // Asking in birr: never charged more than asked, and short by less than the price
  // of one milligram plus one cent.
  lemma EtbRequestIsSpentClosely(side: Side, metal: Metal, cents: nat, market: Market)
    requires Price(side, metal, InEtb(cents), market).Ok?
    ensures var t := Price(side, metal, InEtb(cents), market).terms;
            && t.subtotal <= cents
            && MG_PER_GRAM * (cents - t.subtotal) < UnitPrice(side, market) + MG_PER_GRAM
  {
    var unit := UnitPrice(side, market);
    var grams := cents * MG_PER_GRAM / unit;
    DivBounds(cents * MG_PER_GRAM, unit);
    DivBounds(unit * grams, MG_PER_GRAM);
  }

  lemma SubtotalMonotone(low: nat, high: nat, gramsMg: nat)
    requires low <= high
    ensures Subtotal(low, gramsMg) <= Subtotal(high, gramsMg)
  {
    assert low * gramsMg <= high * gramsMg;
  }

  // Buying and selling the same grams on one tick never pays out more than was paid in.
  lemma RoundTripNeverProfits(metal: Metal, amount: Amount, market: Market)
    requires Price(Buy, metal, amount, market).Ok?
    ensures var bought := Price(Buy, metal, amount, market).terms;
            var sold := Price(Sell, metal, InGrams(bought.gramsMg), market);
            sold.Ok? ==> sold.terms.total <= sold.terms.subtotal <= bought.subtotal <= bought.total
  {
    var bought := Price(Buy, metal, amount, market).terms;
    SpreadWithinMid(market.mid, market.spread);
    SubtotalMonotone(UnitPrice(Sell, market), UnitPrice(Buy, market), bought.gramsMg);
  }

  function Weight(): nat -> int { (g: nat) => g }
  function SubtotalAt(unit: nat): nat -> int { (g: nat) => Subtotal(unit, g) }

  lemma {:induction false} SplitBounds(unit: nat, parts: seq<nat>)
    requires parts != []
    ensures Sum(parts, Weight()) >= 0
    ensures Sum(parts, SubtotalAt(unit)) <= Subtotal(unit, Sum(parts, Weight()))
            <= Sum(parts, SubtotalAt(unit)) + |parts| - 1
    decreases |parts|
  {
    var k := |parts| - 1;
    var last := parts[k];
    if k == 0 {
      assert Sum(parts[..k], Weight()) == 0 && Sum(parts[..k], SubtotalAt(unit)) == 0;
    } else {
      SplitBounds(unit, parts[..k]);
      var rest := Sum(parts[..k], Weight());
      assert unit * (rest + last) == unit * rest + unit * last;
      DivBounds(unit * rest, MG_PER_GRAM);
      DivBounds(unit * last, MG_PER_GRAM);
      DivBounds(unit * (rest + last), MG_PER_GRAM);
    }
  }

  // Splitting one buy into n buys of the same grams at the same unit price
  // lowers the subtotal by at most n - 1 cents, and never raises it.
  lemma SplittingSavesUnderOneCentEach(unit: nat, parts: seq<nat>, whole: nat)
    requires parts != [] && whole == Sum(parts, Weight())
    ensures 0 <= Subtotal(unit, whole) - Sum(parts, SubtotalAt(unit)) <= |parts| - 1
  {
    SplitBounds(unit, parts);
  }
}
