/** Order normalisation and the liquidation estimate (app/services/instrument_service.py). */
module Instruments {
  import opened Common
  import opened Config
  import opened Precision

  datatype Instrument = Instrument(
    tickSize: real,
    lotSize: real,
    minNotional: real,
    maxLeverage: real,
    maintenanceMarginRate: real)

  datatype NormalizedOrder = NormalizedOrder(quantity: real, limitPrice: Option<real>, leverage: real)

  datatype NormalizeError = UnknownInstrument | NormalizedQuantityIsZero | BelowMinNotional

  function NormalizeQuantity(instrument: Instrument, quantity: real): real {
    if instrument.lotSize != 0.0 then RoundToIncrement(quantity, instrument.lotSize) else quantity
  }

  function NormalizePrice(instrument: Instrument, limitPrice: Option<real>): Option<real> {
    if limitPrice.Some? && instrument.tickSize != 0.0
    then Some(RoundToIncrement(limitPrice.value, instrument.tickSize)) else limitPrice
  }

  function EffectiveLeverage(settings: Settings, instrument: Instrument, leverage: real): real {
    Min(leverage, Min(if instrument.maxLeverage != 0.0 then instrument.maxLeverage else leverage, settings.maxLeverage))
  }

  function NormalizeOrder(settings: Settings, known: Option<Instrument>, quantity: real, limitPrice: Option<real>,
                          referencePrice: real, leverage: real): Result<NormalizedOrder, NormalizeError>
  {
    if known.None? then Failure(UnknownInstrument)
    else
      var instrument := known.value;
      var normalizedQuantity := NormalizeQuantity(instrument, quantity);
      var normalizedPrice := NormalizePrice(instrument, limitPrice);
      if normalizedQuantity <= 0.0 then Failure(NormalizedQuantityIsZero)
      else if instrument.minNotional != 0.0
              && !EnforceMinNotional(normalizedQuantity, OrElse(normalizedPrice, referencePrice), instrument.minNotional)
      then Failure(BelowMinNotional)
      else Success(NormalizedOrder(normalizedQuantity, normalizedPrice,
                                   EffectiveLeverage(settings, instrument, leverage)))
  }

  function EstimateLiquidationPrice(settings: Settings, entryPrice: real, side: PositionSide, leverage: real,
                                    maintenanceMarginRate: real): real
  {
    var l := Max(leverage, 1.0);
    var m := Max(maintenanceMarginRate, settings.defaultMaintenanceMarginPct);
    if side == Long then Max(entryPrice * (1.0 - 1.0 / l + m), 0.0)
    else entryPrice * (1.0 + 1.0 / l - m)
  }

  /** How far a price is from its liquidation price, relative to the price. */
  function LiquidationDistance(settings: Settings, price: real, side: PositionSide, leverage: real, mmr: real): real
    requires price > 0.0
  {
    Abs(price - EstimateLiquidationPrice(settings, price, side, leverage, mmr)) / price
  }

  lemma DividedBack(price: real, d: real, product: real)
    requires price > 0.0 && product == price * d
    ensures product / price == d
  {
    var q := product / price;
    assert q * price == product;
    assert (q - d) * price == 0.0;
  }

  /** |price - price * factor| / price is |1 - factor|, also when the product is cut off at zero. */
  lemma ScaledDistance(price: real, factor: real, scaled: real)
    requires price > 0.0 && scaled == price * factor
    ensures Abs(price - scaled) / price == Abs(1.0 - factor)
    ensures Abs(price - Max(scaled, 0.0)) / price == Abs(1.0 - Max(factor, 0.0))
  {
    var gap := price - scaled;
    assert gap == price * (1.0 - factor);
    Sign(price, 1.0 - factor, gap);
    Sign(price, factor, scaled);
    DividedBack(price, Abs(1.0 - factor), Abs(gap));
    DividedBack(price, 1.0, price);
  }

  lemma Sign(price: real, d: real, product: real)
    requires price > 0.0 && product == price * d
    ensures d >= 0.0 <==> product >= 0.0
    ensures Abs(product) == price * Abs(d)
  {
    ScaleNamed(d, 0.0, price, product, 0.0);
    ScaleNamed(0.0, d, price, 0.0, product);
    assert product == -(price * -d);
  }

  function LiquidationFactor(settings: Settings, side: PositionSide, leverage: real, mmr: real): real {
    var i, m := 1.0 / Max(leverage, 1.0), Max(mmr, settings.defaultMaintenanceMarginPct);
    if side == Long then 1.0 - i + m else 1.0 + i - m
  }

  /** The relative distance is a function of leverage and maintenance alone. */
  lemma DistanceFromFactor(settings: Settings, price: real, side: PositionSide, leverage: real, mmr: real)
    requires price > 0.0
    ensures var factor := LiquidationFactor(settings, side, leverage, mmr);
            LiquidationDistance(settings, price, side, leverage, mmr) ==
            Abs(1.0 - if side == Long then Max(factor, 0.0) else factor)
  {
    hide LiquidationFactor, EstimateLiquidationPrice, Max, Abs;
    var factor := LiquidationFactor(settings, side, leverage, mmr);
    var scaled := price * factor;
    EstimateFromFactor(settings, price, side, leverage, mmr, factor, scaled);
    ScaledDistance(price, factor, scaled);
  }

  lemma EstimateFromFactor(settings: Settings, price: real, side: PositionSide, leverage: real, mmr: real,
                           factor: real, scaled: real)
    requires factor == LiquidationFactor(settings, side, leverage, mmr) && scaled == price * factor
    ensures EstimateLiquidationPrice(settings, price, side, leverage, mmr) == if side == Long then Max(scaled, 0.0) else scaled
  {
    var l, m := Max(leverage, 1.0), Max(mmr, settings.defaultMaintenanceMarginPct);
    if side == Long {
      SameProduct(price, 1.0 - 1.0 / l + m, factor);
    } else {
      SameProduct(price, 1.0 + 1.0 / l - m, factor);
    }
    hide Max, LiquidationFactor;
  }

  lemma SameProduct(price: real, a: real, b: real)
    requires a == b
    ensures price * a == price * b
  {
  }

  /** The relative distance to liquidation does not depend on the entry price: slippage of the entry
      fill moves both prices together. */
  lemma LiquidationDistanceIsScaleFree(settings: Settings, a: real, b: real, side: PositionSide, leverage: real, mmr: real)
    requires a > 0.0 && b > 0.0
    ensures LiquidationDistance(settings, a, side, leverage, mmr) == LiquidationDistance(settings, b, side, leverage, mmr)
  {
    DistanceFromFactor(settings, a, side, leverage, mmr);
    DistanceFromFactor(settings, b, side, leverage, mmr);
  }

  /** A quantity that is a positive multiple of the lot goes out unchanged: normalising the quantity
      of an open position for its close never leaves a remainder. */
  lemma LotMultiplesAreFixed(instrument: Instrument, k: int)
    requires instrument.lotSize > 0.0
    ensures NormalizeQuantity(instrument, Multiple(k, instrument.lotSize)) == Multiple(k, instrument.lotSize)
  {
    MultiplesAreFixed(k, instrument.lotSize);
  }
}
