/** How many lots an entry may have: the largest count within five limits. */
module Sizing {
  import opened Arithmetic

  datatype SizingConfig = SizingConfig(
    maxPositionPct: real, maxTotalExposurePct: real, maxParticipation: real, cashBuffer: real,
    riskBudgetPct: real, minOrderNotional: real, sizeFactor: real)

  datatype SizingInput = SizingInput(
    equity: real, cash: real, selected: int, existingExposure: real, reservedCash: real,
    limitPrice: real, lot: int, entryVolume: real, exitVolume: real, q05Abs: real)

  datatype Sized =
    | Lots(lots: int, notional: real)
    | NonPositiveLimit
    | LotsBelowOne
    | BelowMinNotional

  function Min(x: real, y: real): real { if y < x then y else x }

  function AtLeastZero(x: real): real { if x < 0.0 then 0.0 else x }

  /** A factor that is not positive counts as one. */
  function SizeFactor(cfg: SizingConfig): real {
    if cfg.sizeFactor > 0.0 then cfg.sizeFactor else 1.0
  }

  function CapLimit(cfg: SizingConfig, input: SizingInput): real {
    input.equity * cfg.maxPositionPct
  }

  function RemainingExposure(cfg: SizingConfig, equity: real, existingExposure: real): real {
    AtLeastZero(equity * cfg.maxTotalExposurePct - existingExposure)
  }

  function ExposureLimit(cfg: SizingConfig, input: SizingInput): real {
    var selected := if input.selected <= 0 then 1 else input.selected;
    RemainingExposure(cfg, input.equity, input.existingExposure) / selected as real
  }

  function LiquidityLimit(cfg: SizingConfig, input: SizingInput): real {
    Min(input.entryVolume, input.exitVolume) * cfg.maxParticipation
  }

  function CashLimit(cfg: SizingConfig, input: SizingInput): real {
    AtLeastZero(input.cash - input.reservedCash) * cfg.cashBuffer
  }

  function RiskLimit(cfg: SizingConfig, input: SizingInput): real {
    if input.q05Abs > 0.0 then input.equity * cfg.riskBudgetPct / input.q05Abs else CapLimit(cfg, input)
  }

  function Target(cfg: SizingConfig, input: SizingInput): real {
    Min(Min(Min(Min(CapLimit(cfg, input), ExposureLimit(cfg, input)), LiquidityLimit(cfg, input)),
        RiskLimit(cfg, input)),
        CashLimit(cfg, input)) * SizeFactor(cfg)
  }

  function LotNotional(input: SizingInput): real {
    input.limitPrice * input.lot as real
  }

  function Notional(input: SizingInput, lots: int): real {
    LotNotional(input) * lots as real
  }

  lemma NotionalIs(input: SizingInput, lots: int)
    ensures Notional(input, lots) == input.limitPrice * input.lot as real * lots as real
  {
  }

  lemma LotIsWorth(input: SizingInput)
    requires input.limitPrice > 0.0 && input.lot > 0
    ensures LotNotional(input) > 0.0
  {
  }

  function Size(cfg: SizingConfig, input: SizingInput): Sized {
    if Target(cfg, input) <= 0.0 || input.limitPrice <= 0.0 || input.lot <= 0 then NonPositiveLimit
    else
      LotIsWorth(input);
      var lots := (Target(cfg, input) / LotNotional(input)).Floor;
      var notional := Notional(input, lots);
      if lots < 1 then LotsBelowOne
      else if notional < cfg.minOrderNotional then BelowMinNotional
      else Lots(lots, notional)
  }

  /** An amount keeps within each of the five limits, scaled by the size factor. */
  predicate FitsAmount(cfg: SizingConfig, input: SizingInput, amount: real) {
    var f := SizeFactor(cfg);
    && amount <= CapLimit(cfg, input) * f
    && amount <= ExposureLimit(cfg, input) * f
    && amount <= LiquidityLimit(cfg, input) * f
    && amount <= RiskLimit(cfg, input) * f
    && amount <= CashLimit(cfg, input) * f
  }

  predicate Fits(cfg: SizingConfig, input: SizingInput, lots: int) {
    FitsAmount(cfg, input, Notional(input, lots))
  }

  lemma FactorIsPositive(cfg: SizingConfig)
    ensures SizeFactor(cfg) > 0.0 && SizeFactor(cfg) == if cfg.sizeFactor > 0.0 then cfg.sizeFactor else 1.0
  {
  }

  lemma WithinMin(x: real, a: real, b: real, f: real)
    requires f > 0.0
    ensures x <= Min(a, b) * f <==> x <= a * f && x <= b * f
  {
    if b < a {
      Scaled(b, a, f);
    } else {
      Scaled(a, b, f);
    }
  }

  lemma WithinAll(x: real, a: real, b: real, c: real, d: real, e: real, f: real)
    requires f > 0.0
    ensures x <= Min(Min(Min(Min(a, b), c), d), e) * f <==>
      x <= a * f && x <= b * f && x <= c * f && x <= d * f && x <= e * f
  {
    hide Min;
    WithinMin(x, a, b, f);
    WithinMin(x, Min(a, b), c, f);
    WithinMin(x, Min(Min(a, b), c), d, f);
    WithinMin(x, Min(Min(Min(a, b), c), d), e, f);
  }

  lemma FitsIffWithinTarget(cfg: SizingConfig, input: SizingInput, amount: real)
    ensures FitsAmount(cfg, input, amount) <==> amount <= Target(cfg, input)
  {
    hide CapLimit, ExposureLimit, LiquidityLimit, RiskLimit, CashLimit, SizeFactor, Min;
    FactorIsPositive(cfg);
    WithinAll(amount, CapLimit(cfg, input), ExposureLimit(cfg, input), LiquidityLimit(cfg, input),
        RiskLimit(cfg, input),
              CashLimit(cfg, input), SizeFactor(cfg));
  }

  lemma NotionalWithin(input: SizingInput, target: real, lots: int)
    requires LotNotional(input) > 0.0
    ensures Notional(input, lots) <= target <==> lots <= (target / LotNotional(input)).Floor
  {
    var each := LotNotional(input);
    assert target / each * each == target;
    if lots as real <= target / each {
      Scaled(lots as real, target / each, each);
    } else {
      Scaled(target / each, lots as real, each);
      assert target < lots as real * each;
    }
  }

  ghost predicate Largest(cfg: SizingConfig, input: SizingInput, lots: int) {
    forall n :: Fits(cfg, input, n) <==> n <= lots
  }

  lemma QuotientIsLargest(cfg: SizingConfig, input: SizingInput)
    requires LotNotional(input) > 0.0
    ensures Largest(cfg, input, (Target(cfg, input) / LotNotional(input)).Floor)
  {
    hide Fits, Target, LotNotional;
    forall n ensures Fits(cfg, input, n) <==> n <= (Target(cfg, input) / LotNotional(input)).Floor {
      FitsIffWithinQuotient(cfg, input, n);
    }
  }

  lemma FitsIffWithinQuotient(cfg: SizingConfig, input: SizingInput, n: int)
    requires LotNotional(input) > 0.0
    ensures Fits(cfg, input, n) <==> n <= (Target(cfg, input) / LotNotional(input)).Floor
  {
    hide FitsAmount, Target, LotNotional, Notional;
    FitsIffWithinTarget(cfg, input, Notional(input, n));
    NotionalWithin(input, Target(cfg, input), n);
  }

  /** A positive number of lots is granted if and only if at least one lot fits and the largest number
      that fits is worth the minimal order; and it is that largest number. */
  lemma SizeIsLargest(cfg: SizingConfig, input: SizingInput)
    requires input.limitPrice > 0.0 && input.lot > 0
    ensures
      match Size(cfg, input)
      case Lots(lots, notional) =>
        && Largest(cfg, input, lots) && lots >= 1
        && notional == Notional(input, lots) == input.limitPrice * input.lot as real * lots as real
        && notional >= cfg.minOrderNotional
      case BelowMinNotional =>
        Fits(cfg, input, 1) && forall lots :: Largest(cfg, input, lots) ==> Notional(input, lots) < cfg.minOrderNotional
      case _ => !Fits(cfg, input, 1)
  {
    hide FitsAmount, Target, LotNotional;
    LotIsWorth(input);
    QuotientIsLargest(cfg, input);
    if Size(cfg, input).Lots? {
      NotionalIs(input, Size(cfg, input).lots);
    }
    FitsIffWithinTarget(cfg, input, Notional(input, 1));
    assert Notional(input, 1) == LotNotional(input);
    var most := (Target(cfg, input) / LotNotional(input)).Floor;
    forall lots | Largest(cfg, input, lots) ensures lots == most {
      assert Fits(cfg, input, lots) && Fits(cfg, input, most);
    }
  }

  lemma LargestIsUnique(cfg: SizingConfig, input: SizingInput)
    ensures forall m, n :: Largest(cfg, input, m) && Largest(cfg, input, n) ==> m == n
    ensures forall n :: Largest(cfg, input, n) ==> (Fits(cfg, input, 1) <==> n >= 1)
  {
    hide Fits;
    forall m, n | Largest(cfg, input, m) && Largest(cfg, input, n) ensures m == n {
      assert Fits(cfg, input, m) && Fits(cfg, input, n);
    }
  }

  /** Nothing is granted for want of a limit if and only if no positive amount keeps within all five. */
  lemma NothingFitsIff(cfg: SizingConfig, input: SizingInput)
    ensures input.limitPrice > 0.0 && input.lot > 0 ==>
      (Size(cfg, input).NonPositiveLimit? <==> forall amount :: FitsAmount(cfg, input, amount) ==> amount <= 0.0)
    ensures input.limitPrice <= 0.0 || input.lot <= 0 ==> Size(cfg, input).NonPositiveLimit?
  {
    hide FitsAmount, Target, LotNotional;
    forall amount ensures FitsAmount(cfg, input, amount) <==> amount <= Target(cfg, input) {
      FitsIffWithinTarget(cfg, input, amount);
    }
    assert FitsAmount(cfg, input, Target(cfg, input));
  }

  /** The five limits in the portfolio's own terms: a share of the equity, an equal part of what is left
      of the total exposure, a share of either interval's volume, a loss at the 5% quantile within the
      risk budget, and a share of the free cash. */
  lemma FitsMeans(cfg: SizingConfig, input: SizingInput, amount: real, f: real)
    requires cfg.maxParticipation >= 0.0 && f == if cfg.sizeFactor > 0.0 then cfg.sizeFactor else 1.0
    ensures
      var exposure := input.equity * cfg.maxTotalExposurePct - input.existingExposure;
      var cash := input.cash - input.reservedCash;
      FitsAmount(cfg, input, amount) <==>
        && amount <= input.equity * cfg.maxPositionPct * f
        && amount * (if input.selected > 1 then input.selected as real else 1.0)
           <= (if exposure < 0.0 then 0.0 else exposure) * f
        && amount <= input.entryVolume * cfg.maxParticipation * f
        && amount <= input.exitVolume * cfg.maxParticipation * f
        && (input.q05Abs > 0.0 ==> amount * input.q05Abs <= input.equity * cfg.riskBudgetPct * f)
        && amount <= (if cash < 0.0 then 0.0 else cash) * cfg.cashBuffer * f
  {
    hide LiquidityLimit, ExposureLimit, RiskLimit, CapLimit, CashLimit, SizeFactor;
    FactorIsPositive(cfg);
    CapAndCashMean(cfg, input, amount, f);
    LiquidityMeans(cfg, input, amount, f);
    ShareMeans(cfg, input, amount, f);
    RiskMeans(cfg, input, amount, f);
  }

  lemma CapAndCashMean(cfg: SizingConfig, input: SizingInput, amount: real, f: real)
    ensures amount <= CapLimit(cfg, input) * f <==> amount <= input.equity * cfg.maxPositionPct * f
    ensures var cash := input.cash - input.reservedCash;
            amount <= CashLimit(cfg, input) * f <==>
            amount <= (if cash < 0.0 then 0.0 else cash) * cfg.cashBuffer * f
  {
  }

  lemma LiquidityMeans(cfg: SizingConfig, input: SizingInput, amount: real, f: real)
    requires cfg.maxParticipation >= 0.0 && f > 0.0
    ensures amount <= LiquidityLimit(cfg, input) * f <==>
      && amount <= input.entryVolume * cfg.maxParticipation * f
      && amount <= input.exitVolume * cfg.maxParticipation * f
  {
    var a, b, share := input.entryVolume, input.exitVolume, cfg.maxParticipation;
    ScaledAtLeastZero(Min(a, b), if a < b then b else a, share);
    ScaledAtLeastZero(Min(a, b) * share, (if a < b then b else a) * share, f);
  }

  lemma ShareMeans(cfg: SizingConfig, input: SizingInput, amount: real, f: real)
    ensures var exposure := input.equity * cfg.maxTotalExposurePct - input.existingExposure;
            amount <= ExposureLimit(cfg, input) * f <==>
            amount * (if input.selected > 1 then input.selected as real else 1.0)
            <= (if exposure < 0.0 then 0.0 else exposure) * f
  {
    hide RemainingExposure;
    var remaining := RemainingExposure(cfg, input.equity, input.existingExposure);
    var n := if input.selected > 1 then input.selected else 1;
    QuotientTimes(remaining, n);
    Scaled(amount, remaining / n as real * f, n as real);
    assert remaining / n as real * f * n as real == remaining / n as real * n as real * f;
    RemainingIs(cfg, input);
  }

  lemma RemainingIs(cfg: SizingConfig, input: SizingInput)
    ensures var exposure := input.equity * cfg.maxTotalExposurePct - input.existingExposure;
            RemainingExposure(cfg, input.equity, input.existingExposure) == if exposure < 0.0 then 0.0 else exposure
  {
  }

  lemma RiskMeans(cfg: SizingConfig, input: SizingInput, amount: real, f: real)
    ensures
      amount <= RiskLimit(cfg, input) * f <==>
      if input.q05Abs > 0.0 then amount * input.q05Abs <= input.equity * cfg.riskBudgetPct * f
      else amount <= input.equity * cfg.maxPositionPct * f
  {
    if input.q05Abs > 0.0 {
      var budget, q := input.equity * cfg.riskBudgetPct, input.q05Abs;
      assert budget / q * q == budget;
      Scaled(amount, budget / q * f, q);
      assert budget / q * f * q == budget / q * q * f;
    }
  }

  /** What is granted loses no more than the risk budget when the night is as bad as its 5% quantile. */
  lemma GrantedWithinRisk(cfg: SizingConfig, input: SizingInput)
    requires Size(cfg, input).Lots? && cfg.sizeFactor <= 1.0 && input.q05Abs > 0.0
    ensures Size(cfg, input).notional * input.q05Abs <= input.equity * cfg.riskBudgetPct
  {
    hide Target, SizeFactor, CapLimit, ExposureLimit, LiquidityLimit, RiskLimit, CashLimit, LotNotional;
    LotIsWorth(input);
    SizeIsLargest(cfg, input);
    var notional, budget := Size(cfg, input).notional, input.equity * cfg.riskBudgetPct;
    assert Fits(cfg, input, Size(cfg, input).lots);
    PositiveTimes(LotNotional(input), Size(cfg, input).lots);
    LossWithin(cfg, input, notional);
  }

  lemma LossWithin(cfg: SizingConfig, input: SizingInput, notional: real)
    requires notional <= RiskLimit(cfg, input) * SizeFactor(cfg) && 0.0 <= notional
    requires cfg.sizeFactor <= 1.0 && input.q05Abs > 0.0
    ensures notional * input.q05Abs <= input.equity * cfg.riskBudgetPct
  {
    hide SizeFactor, RiskLimit;
    RiskMeans(cfg, input, notional, SizeFactor(cfg));
    NaturalProduct(notional, input.q05Abs);
    var budget := input.equity * cfg.riskBudgetPct;
    FactorAtMostOne(cfg, budget);
    assert notional * input.q05Abs <= budget * SizeFactor(cfg);
  }

  lemma FactorAtMostOne(cfg: SizingConfig, x: real)
    requires cfg.sizeFactor <= 1.0
    ensures 0.0 <= x * SizeFactor(cfg) ==> x * SizeFactor(cfg) <= x
  {
    if 0.0 <= x {
      Shrinks(x, SizeFactor(cfg));
    } else {
      FactorIsPositive(cfg);
      Scaled(0.0, x, SizeFactor(cfg));
    }
  }

  // ---------------------------------------------------------------- what a granted size is worth

  lemma WithinShare(cfg: SizingConfig, input: SizingInput, notional: real)
    requires notional <= ExposureLimit(cfg, input) * SizeFactor(cfg) && 0 < input.selected && cfg.sizeFactor <= 1.0
    ensures notional * input.selected as real <= RemainingExposure(cfg, input.equity, input.existingExposure)
  {
    hide RemainingExposure;
    var remaining := RemainingExposure(cfg, input.equity, input.existingExposure);
    ExposureIsNatural(cfg, input.equity, input.existingExposure);
    QuotientTimes(remaining, input.selected);
    PositiveTimes(remaining / input.selected as real, input.selected);
    Shrinks(ExposureLimit(cfg, input), SizeFactor(cfg));
    Scaled(notional, ExposureLimit(cfg, input), input.selected as real);
  }

  lemma WithinCash(cfg: SizingConfig, input: SizingInput, notional: real)
    requires notional <= CashLimit(cfg, input) * SizeFactor(cfg) && cfg.sizeFactor <= 1.0
    ensures cfg.cashBuffer >= 0.0 ==> notional <= AtLeastZero(input.cash - input.reservedCash) * cfg.cashBuffer
  {
    if cfg.cashBuffer >= 0.0 {
      Shrinks(CashLimit(cfg, input), SizeFactor(cfg));
    }
  }

  lemma ExposureIsNatural(cfg: SizingConfig, equity: real, existingExposure: real)
    ensures RemainingExposure(cfg, equity, existingExposure) >= 0.0
  {
  }

  lemma SizedNotional(cfg: SizingConfig, input: SizingInput)
    requires Size(cfg, input).Lots?
    ensures Size(cfg, input).lots >= 1 && Size(cfg, input).notional > 0.0
    ensures Size(cfg, input).notional <= ExposureLimit(cfg, input) * SizeFactor(cfg)
    ensures Size(cfg, input).notional <= CashLimit(cfg, input) * SizeFactor(cfg)
  {
    hide Target, ExposureLimit, CashLimit, SizeFactor;
    LotIsWorth(input);
    SizeIsLargest(cfg, input);
    assert Fits(cfg, input, Size(cfg, input).lots);
    PositiveTimes(LotNotional(input), Size(cfg, input).lots);
  }
}
