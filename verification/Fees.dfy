/** Taker fees: exact amounts, rounded half up to a hundred-thousandth, and how far that is off. */
module Fees {
  import opened Wrappers
  import opened Domain

  datatype LiquidityRole = Maker | Taker

  datatype FeeQuote = FeeQuote(
    price: real,
    sizeShares: real,
    feeRateBps: int,
    feeUsdc: real,
    feeShares: Option<real>,
    side: Side,
    role: LiquidityRole)

  /** A quote, or the value error the arguments raise. */
  datatype FeeAnswer = Quoted(quote: FeeQuote) | PriceOutOfRange | NegativeSize

  const QUANTUM := 0.00001

  /** The fee-rate endpoint returns 30 for the documented rate 0.03. */
  const RATE_DENOMINATOR := 1000.0

  /** Rounding half up to the quantum, for amounts that are not negative. */
  function Rounded(x: real): real {
    (x / QUANTUM + 0.5).Floor as real * QUANTUM
  }

  function RateOf(bps: int): (r: real)
    ensures r >= 0.0
  {
    if bps <= 0 then 0.0 else bps as real / RATE_DENOMINATOR
  }

  function EffectiveBps(bps: Option<int>, enabled: Option<bool>, role: LiquidityRole): int {
    if enabled != Some(false) && role == Taker && bps.Some? && bps.value > 0 then bps.value else 0
  }

  function Mul(a: real, b: real): real { a * b }

  /** The fee before rounding: size times rate times price times its complement. */
  function ExactFee(size: real, rate: real, price: real): real {
    Mul(Mul(Mul(size, rate), price), 1.0 - price)
  }

  function Quote(price: real, size: real, side: Side, bps: Option<int>, enabled: Option<bool>, role: LiquidityRole): FeeAnswer {
    if price < 0.0 || price > 1.0 then PriceOutOfRange
    else if size < 0.0 then NegativeSize
    else
      var effective := EffectiveBps(bps, enabled, role);
      var fee := Rounded(ExactFee(size, RateOf(effective), price));
      Quoted(FeeQuote(price, size, effective, fee,
                      if side == Sell then None else if price == 0.0 then Some(0.0) else Some(Rounded(fee / price)),
                      side, role))
  }

  // ---------------------------------------------------------------------- arithmetic

  lemma RoundedIsNear(x: real)
    ensures x - QUANTUM / 2.0 <= Rounded(x) <= x + QUANTUM / 2.0
    ensures x >= 0.0 ==> Rounded(x) >= 0.0
  {}

  lemma RoundedIsMonotone(x: real, y: real)
    requires x <= y
    ensures Rounded(x) <= Rounded(y)
  {
    assert (x / QUANTUM + 0.5).Floor <= (y / QUANTUM + 0.5).Floor;
  }

  lemma MulIsMonotone(a: real, b: real, c: real)
    requires a <= b && c >= 0.0
    ensures Mul(a, c) <= Mul(b, c) && Mul(c, a) <= Mul(c, b)
  {}

  lemma MulNonNegative(a: real, b: real)
    requires a >= 0.0 && b >= 0.0
    ensures Mul(a, b) >= 0.0
  {}

  lemma MulSwaps(a: real, b: real, c: real)
    ensures Mul(Mul(a, b), c) == Mul(Mul(a, c), b)
  {}

  lemma MulAssociates(a: real, b: real, c: real)
    ensures Mul(Mul(a, b), c) == Mul(a, Mul(b, c))
  {}

  lemma ExactIsNonNegative(size: real, rate: real, price: real)
    requires size >= 0.0 && rate >= 0.0 && 0.0 <= price <= 1.0
    ensures ExactFee(size, rate, price) >= 0.0
  {
    MulNonNegative(size, rate);
    MulNonNegative(Mul(size, rate), price);
    MulNonNegative(Mul(Mul(size, rate), price), 1.0 - price);
  }

  lemma ExactIsSymmetric(size: real, rate: real, price: real)
    ensures ExactFee(size, rate, price) == ExactFee(size, rate, 1.0 - price)
  {
    MulSwaps(Mul(size, rate), price, 1.0 - price);
  }

  lemma ExactGrowsWithSize(small: real, large: real, rate: real, price: real)
    requires 0.0 <= small <= large && rate >= 0.0 && 0.0 <= price <= 1.0
    ensures ExactFee(small, rate, price) <= ExactFee(large, rate, price)
  {
    MulIsMonotone(small, large, rate);
    MulIsMonotone(Mul(small, rate), Mul(large, rate), price);
    MulIsMonotone(Mul(Mul(small, rate), price), Mul(Mul(large, rate), price), 1.0 - price);
  }

  lemma ComplementAtMostQuarter(price: real)
    ensures Mul(price, 1.0 - price) <= 0.25
  {
    var d := price - 0.5;
    SquareNonNegative(d);
    assert Mul(price, 1.0 - price) == 0.25 - d * d;
  }

  lemma SquareNonNegative(d: real)
    ensures d * d >= 0.0
  {}

  lemma ExactAtMostQuarter(size: real, rate: real, price: real)
    requires size >= 0.0 && rate >= 0.0
    ensures ExactFee(size, rate, price) <= Mul(size, rate) / 4.0
  {
    MulNonNegative(size, rate);
    MulAssociates(Mul(size, rate), price, 1.0 - price);
    ComplementAtMostQuarter(price);
    MulIsMonotone(Mul(price, 1.0 - price), 0.25, Mul(size, rate));
  }

  // ------------------------------------------------------------------------ what a quote says

  /** The fee is never negative, and at most a quarter of size times rate, give or take half a quantum. */
  lemma FeeBounds(price: real, size: real, side: Side, bps: Option<int>, enabled: Option<bool>, role: LiquidityRole)
    requires 0.0 <= price <= 1.0 && size >= 0.0
    ensures
      var q := Quote(price, size, side, bps, enabled, role);
      && q.Quoted? && 0.0 <= q.quote.feeUsdc <= Mul(size, RateOf(EffectiveBps(bps, enabled, role))) / 4.0 + QUANTUM / 2.0
      && (EffectiveBps(bps, enabled, role) == 0 ==> q.quote.feeUsdc == 0.0)
  {
    var rate := RateOf(EffectiveBps(bps, enabled, role));
    var exact := ExactFee(size, rate, price);
    assert Quote(price, size, side, bps, enabled, role).quote.feeUsdc == Rounded(exact);
    ExactIsNonNegative(size, rate, price);
    ExactAtMostQuarter(size, rate, price);
    RoundedIsNear(exact);
    if EffectiveBps(bps, enabled, role) == 0 {
      assert Mul(size, rate) == 0.0;
      assert ExactFee(size, rate, price) == 0.0;
    }
  }

  /** A quote is refused for a price outside the unit interval, then for a negative size, and for nothing else. */
  lemma QuoteFailsExactlyWhen(price: real, size: real, side: Side, bps: Option<int>, enabled: Option<bool>, role: LiquidityRole)
    ensures
      var q := Quote(price, size, side, bps, enabled, role);
      && (q.PriceOutOfRange? <==> price < 0.0 || price > 1.0)
      && (q.NegativeSize? <==> 0.0 <= price <= 1.0 && size < 0.0)
  {}

  lemma ProductOf(size: real, bps: int, price: real)
    requires bps > 0
    ensures ExactFee(size, RateOf(bps), price) * 1000.0 == bps as real * size * price * (1.0 - price)
  {
    assert RateOf(bps) * 1000.0 == bps as real;
    assert Mul(size, RateOf(bps)) * 1000.0 == size * bps as real;
    assert Mul(Mul(size, RateOf(bps)), price) * 1000.0 == size * bps as real * price;
  }

  /** Takers pay, in thousandths: rate times size times price times its complement, to half a hundred-thousandth. */
  lemma TakerFeeIs(price: real, size: real, side: Side, bps: int, enabled: Option<bool>) returns (units: int)
    requires 0.0 <= price <= 1.0 && size >= 0.0 && bps > 0 && enabled != Some(false)
    ensures
      var q := Quote(price, size, side, Some(bps), enabled, Taker);
      && q.Quoted? && q.quote.feeRateBps == bps && q.quote.feeUsdc * 100000.0 == units as real
      && -0.005 <= q.quote.feeUsdc * 1000.0 - bps as real * size * price * (1.0 - price) <= 0.005
  {
    var exact := ExactFee(size, RateOf(bps), price);
    ProductOf(size, bps, price);
    RoundedIsNear(exact);
    units := (exact / QUANTUM + 0.5).Floor;
  }

  /** Nobody else pays: makers, markets without fees, and rates that are absent or not positive. */
  lemma NoFeeWhen(price: real, size: real, side: Side, bps: Option<int>, enabled: Option<bool>, role: LiquidityRole)
    requires 0.0 <= price <= 1.0 && size >= 0.0
    requires role == Maker || enabled == Some(false) || bps.None? || bps.value <= 0
    ensures
      var q := Quote(price, size, side, bps, enabled, role);
      && q.Quoted? && q.quote.feeUsdc == 0.0 && q.quote.feeRateBps == 0
      && (q.quote.feeShares.None? <==> side == Sell) && (side == Buy && price == 0.0 ==> q.quote.feeShares == Some(0.0))
  {
    FeeBounds(price, size, side, bps, enabled, role);
  }

  /** Buying at a price costs the same fee as buying at its complement. */
  lemma FeeIsSymmetric(price: real, size: real, side: Side, bps: Option<int>, enabled: Option<bool>, role: LiquidityRole)
    requires 0.0 <= price <= 1.0 && size >= 0.0
    ensures Quote(price, size, side, bps, enabled, role).quote.feeUsdc
         == Quote(1.0 - price, size, side, bps, enabled, role).quote.feeUsdc
  {
    ExactIsSymmetric(size, RateOf(EffectiveBps(bps, enabled, role)), price);
  }

  lemma FeeGrowsWithSize(price: real, small: real, large: real, side: Side, bps: Option<int>, enabled: Option<bool>,
                         role: LiquidityRole)
    requires 0.0 <= price <= 1.0 && 0.0 <= small <= large
    ensures Quote(price, small, side, bps, enabled, role).quote.feeUsdc
         <= Quote(price, large, side, bps, enabled, role).quote.feeUsdc
  {
    var rate := RateOf(EffectiveBps(bps, enabled, role));
    ExactGrowsWithSize(small, large, rate, price);
    RoundedIsMonotone(ExactFee(small, rate, price), ExactFee(large, rate, price));
  }

  lemma Quotient(a: real, b: real)
    requires b > 0.0
    ensures Mul(a, b) / b == a
  {}

  lemma QuotientIsMonotone(a: real, b: real, c: real)
    requires a <= b && c > 0.0
    ensures a / c <= b / c
  {}

  lemma QuotientOfSum(a: real, b: real, c: real)
    requires c > 0.0
    ensures (a + b) / c == a / c + b / c && (a - b) / c == a / c - b / c
  {}

  /**
   * The fee in shares of a buy is rounded twice. It is off from size times rate times the
   * complement of the price by at most half a quantum, and half a quantum over the price.
   */
  lemma FeeSharesAreNear(price: real, size: real, bps: Option<int>, enabled: Option<bool>, role: LiquidityRole)
    requires 0.0 < price <= 1.0 && size >= 0.0
    ensures
      var shares := Quote(price, size, Buy, bps, enabled, role).quote.feeShares;
      var exact := Mul(Mul(size, RateOf(EffectiveBps(bps, enabled, role))), 1.0 - price);
      var slack := QUANTUM / 2.0 + (QUANTUM / 2.0) / price;
      shares.Some? && exact - slack <= shares.value <= exact + slack
  {
    var rate := RateOf(EffectiveBps(bps, enabled, role));
    var exact := ExactFee(size, rate, price);
    var fee := Rounded(exact);
    RoundedIsNear(exact);
    RoundedIsNear(fee / price);
    MulSwaps(Mul(size, rate), price, 1.0 - price);
    Quotient(Mul(Mul(size, rate), 1.0 - price), price);
    QuotientIsMonotone(exact - QUANTUM / 2.0, fee, price);
    QuotientIsMonotone(fee, exact + QUANTUM / 2.0, price);
    QuotientOfSum(exact, QUANTUM / 2.0, price);
  }

  // --------------------------------------------------------------------------- previews

  datatype TakerFeePreview =
    TakerFeePreview(basis: real, feeRateBps: int, buy: Option<FeeQuote>, sell: Option<FeeQuote>)

  datatype PreviewAnswer = Previewed(preview: TakerFeePreview) | NoPreview | PreviewRaised

  function TakerRate(enabled: Option<bool>, feeRateBps: Option<int>, takerBaseBps: Option<int>): Option<int> {
    if enabled == Some(false) then Some(0) else if feeRateBps.Some? then feeRateBps else takerBaseBps
  }

  /** The quote at a side of the book, if the book has that side. */
  function SideQuote(best: Option<real>, basis: real, side: Side, rate: Option<int>, enabled: Option<bool>): Option<FeeAnswer> {
    if best.None? then None else Some(Quote(best.value, basis, side, rate, enabled, Taker))
  }

  predicate Fails(answer: Option<FeeAnswer>) { answer.Some? && !answer.value.Quoted? }

  function QuoteOf(answer: Option<FeeAnswer>): Option<FeeQuote>
    requires !Fails(answer)
  {
    if answer.None? then None else Some(answer.value.quote)
  }

  /** The preview of both sides of a book; none without a book, a rate or a side. */
  function Preview(book: Option<Orderbook>, basis: real, enabled: Option<bool>, feeRateBps: Option<int>,
                   takerBaseBps: Option<int>): PreviewAnswer {
    var rate := TakerRate(enabled, feeRateBps, takerBaseBps);
    if book.None? then NoPreview
    else if basis < 0.0 then PreviewRaised
    else if rate.None? then NoPreview
    else
      var buy := SideQuote(book.value.bestAsk, basis, Buy, rate, enabled);
      var sell := SideQuote(book.value.bestBid, basis, Sell, rate, enabled);
      if Fails(buy) || Fails(sell) then PreviewRaised
      else if buy.None? && sell.None? then NoPreview
      else Previewed(TakerFeePreview(basis, if enabled != Some(false) then rate.value else 0, QuoteOf(buy), QuoteOf(sell)))
  }

  /**
   * When there is a preview, and of what: a book, a size that is not negative, a rate, and a
   * side to quote. It raises for a negative size, or a best price outside the unit interval.
   */
  lemma PreviewExactlyWhen(book: Option<Orderbook>, basis: real, enabled: Option<bool>, feeRateBps: Option<int>,
                           takerBaseBps: Option<int>)
    ensures
      var p := Preview(book, basis, enabled, feeRateBps, takerBaseBps);
      var rated := enabled == Some(false) || feeRateBps.Some? || takerBaseBps.Some?;
      && (p.NoPreview? <==>
           book.None? || (basis >= 0.0 && (!rated || (book.value.bestAsk.None? && book.value.bestBid.None?))))
      && (p.PreviewRaised? <==>
           book.Some? && (basis < 0.0 || (rated && (OutOfRange(book.value.bestAsk) || OutOfRange(book.value.bestBid)))))
      && (p.Previewed? ==>
        && p.preview.basis == basis
        && (p.preview.buy.Some? <==> book.value.bestAsk.Some?) && (p.preview.sell.Some? <==> book.value.bestBid.Some?)
        && (p.preview.buy.Some? ==>
             p.preview.buy.value.side == Buy && Some(p.preview.buy.value.price) == book.value.bestAsk)
        && (p.preview.sell.Some? ==>
             p.preview.sell.value.side == Sell && Some(p.preview.sell.value.price) == book.value.bestBid)
        && p.preview.feeRateBps == (if enabled == Some(false) then 0 else feeRateBps.GetOr(takerBaseBps.GetOr(0))))
  {}

  predicate OutOfRange(best: Option<real>) { best.Some? && (best.value < 0.0 || best.value > 1.0) }

  /** A preview shows the rate its quotes were computed with exactly when that rate is not negative. */
  lemma PreviewShowsItsRateExactlyWhen(book: Option<Orderbook>, basis: real, enabled: Option<bool>, feeRateBps: Option<int>,
                                       takerBaseBps: Option<int>)
    requires Preview(book, basis, enabled, feeRateBps, takerBaseBps).Previewed?
    ensures
      var p := Preview(book, basis, enabled, feeRateBps, takerBaseBps).preview;
      && (p.buy.Some? || p.sell.Some?)
      && (p.buy.Some? ==>
           (p.feeRateBps == p.buy.value.feeRateBps <==> TakerRate(enabled, feeRateBps, takerBaseBps).value >= 0))
      && (p.sell.Some? ==>
           (p.feeRateBps == p.sell.value.feeRateBps <==> TakerRate(enabled, feeRateBps, takerBaseBps).value >= 0))
  {
    var rate := TakerRate(enabled, feeRateBps, takerBaseBps).value;
    assert EffectiveBps(Some(rate), enabled, Taker) == if enabled != Some(false) && rate > 0 then rate else 0;
  }
}
