/** Bimonthly CFE bill for the five tariffs of the quote page: 01 (three
    consumption blocks), DAC (flat rate), GDMT (flat rate plus estimated
    demand), GDMTH (time-of-use split plus estimated demand) and PDBT
    (itemised components plus IVA, or a calibrated affine formula). */
module Tariffs {
  import opened Numeric

  /** Tariff 01: fixed charge, block sizes and the three block rates. */
  datatype Params01 = Params01(
    fixed01: real, basicBlock: real, intermediateBlock: real,
    rateBasic: real, rateIntermediate: real, rateExceed: real)

  datatype ParamsDAC = ParamsDAC(fixedDac: real, rateDac: real)

  datatype ParamsGDMT = ParamsGDMT(
    fixedGdmt: real, rateGdmt: real, demandRateGdmt: real, loadFactorGdmt: real)

  datatype ParamsGDMTH = ParamsGDMTH(
    fixedGdmth: real, demandRateGdmth: real,
    ratePunta: real, rateIntermedia: real, rateBase: real,
    splitPunta: real, splitIntermedia: real, splitBase: real,
    loadFactorGdmth: real)

  /** PDBT itemised: supply charge, six per-kWh components and the IVA rate. */
  datatype ParamsPDBT = ParamsPDBT(
    suministro: real, distribucion: real, transmision: real, cenace: real,
    energia: real, capacidad: real, scnmem: real, iva: real)

  /** The active tariff together with its own parameter record. */
  datatype Tariff =
    | T01(p01: Params01)
    | DAC(pDac: ParamsDAC)
    | GDMT(pGdmt: ParamsGDMT)
    | GDMTH(pGdmth: ParamsGDMTH)
    | PDBT(pPdbt: ParamsPDBT)

  /** Calibrated PDBT constants (IVA included). */
  const PdbtFixedBimMxn: real := 90.04738842214351
  const PdbtRateMxnPerKwh: real := 5.367731548519526

  /** Default itemised PDBT parameters. */
  const DefaultPdbt: ParamsPDBT := ParamsPDBT(74.48, 0.63477, 0.08231, 0.0296, 0.85813, 0.52917, 0.0282, 0.16)

  /** Days in a bimester assumed by the demand estimate. */
  const DaysPerBimester: real := 60.0

  /** Floor that keeps the load factor away from zero. */
  const MinLoadFactor: real := 0.000001

  /** costPDBTCalibratedMXN: the calibrated fixed charge plus the calibrated
      rate per kWh (IVA included): the fixed charge alone at 0 kWh, and never
      less for a non-negative consumption. */
  function CostPdbtCalibrated(kWhBim: real): (c: real)
    ensures kWhBim == 0.0 ==> c == PdbtFixedBimMxn
    ensures kWhBim >= 0.0 ==> c >= PdbtFixedBimMxn
  {
    PdbtFixedBimMxn + PdbtRateMxnPerKwh * kWhBim
  }

  /** Each calibrated kWh costs the same: the difference of two calibrated
      costs is the rate times the difference of the consumptions. */
  lemma CalibratedIncrement(k1: real, k2: real)
    ensures CostPdbtCalibrated(k2) - CostPdbtCalibrated(k1) == PdbtRateMxnPerKwh * (k2 - k1)
  {
  }

  /** estimateDemandKWFromBim: the average kW over the period divided by the
      (floored) load factor. Equivalently, demand times load factor times the
      period's hours gives back the energy. */
  function EstimateDemandKW(kwhBim: real, loadFactor: real, days: real): (kw: real)
    requires days != 0.0
    ensures kw * Max(loadFactor, MinLoadFactor) * (days * 24.0) == kwhBim
    ensures kwhBim >= 0.0 && days > 0.0 ==> kw >= 0.0
  {
    var kwAvg := kwhBim / (days * 24.0);
    var m := Max(loadFactor, MinLoadFactor);
    assert (kwAvg / m) * m == kwAvg;
    kwAvg / m
  }

  /** The three consumption blocks of tariff 01. */
  datatype Blocks = Blocks(basic: real, intermediate: real, exceed: real)

  function Blocks01(kwh: real, basicLimit: real, intermediateLimit: real): (b: Blocks)
    ensures b.basic >= 0.0 && b.intermediate >= 0.0 && b.exceed >= 0.0
    ensures basicLimit >= 0.0 ==> b.basic <= basicLimit
    ensures intermediateLimit >= 0.0 ==> b.intermediate <= intermediateLimit
    ensures kwh >= 0.0 && basicLimit >= 0.0 && intermediateLimit >= 0.0 ==>
      b.basic + b.intermediate + b.exceed == kwh
    // the blocks fill in order: a later block is used only once the earlier one is full
    ensures b.intermediate > 0.0 && basicLimit >= 0.0 ==> b.basic == basicLimit
    ensures b.exceed > 0.0 && intermediateLimit >= 0.0 ==> b.intermediate == intermediateLimit
  {
    var b1 := Max(Min(kwh, basicLimit), 0.0);
    var rem := Max(kwh - b1, 0.0);
    var b2 := Max(Min(rem, intermediateLimit), 0.0);
    var b3 := Max(rem - intermediateLimit, 0.0);
    Blocks(b1, b2, b3)
  }

  function Energy01(p: Params01, kwh: real): real
  {
    var b := Blocks01(kwh, p.basicBlock, p.intermediateBlock);
    b.basic * p.rateBasic + b.intermediate * p.rateIntermediate + b.exceed * p.rateExceed
  }

  /** GDMTH energy: the kWh split into punta / intermedia / base, each at its rate. */
  function EnergyGdmth(p: ParamsGDMTH, kwh: real): real
  {
    p.ratePunta * (kwh * p.splitPunta)
      + p.rateIntermedia * (kwh * p.splitIntermedia)
      + p.rateBase * (kwh * p.splitBase)
  }

  /** Demand charge of a bimester: the monthly demand rate charged twice. */
  function DemandCharge(kwh: real, demandRateMonth: real, loadFactor: real): real
  {
    demandRateMonth * EstimateDemandKW(kwh, loadFactor, DaysPerBimester) * 2.0
  }

  function PdbtRateSum(p: ParamsPDBT): real
  {
    p.distribucion + p.transmision + p.cenace + p.energia + p.capacidad + p.scnmem
  }

  /** The amount of one bimester before rounding, tariff by tariff. Every
      tariff except 01 charges its fixed part plus the marginal rate per kWh. */
  function Amount(t: Tariff, kwhBim: real, usePdbtCal: bool): (a: real)
    ensures !t.T01? ==> a == FixedPart(t, usePdbtCal) + MarginalRate(t, usePdbtCal) * kwhBim
  {
    match t
    case T01(p) => Energy01(p, kwhBim) + p.fixed01
    case DAC(p) => p.rateDac * kwhBim + p.fixedDac
    case GDMT(p) =>
      DemandChargeLinear(kwhBim, p.demandRateGdmt, p.loadFactorGdmt);
      Distrib(p.rateGdmt, DemandPerKwh(p.demandRateGdmt, p.loadFactorGdmt), kwhBim);
      p.rateGdmt * kwhBim + DemandCharge(kwhBim, p.demandRateGdmt, p.loadFactorGdmt) + p.fixedGdmt
    case GDMTH(p) =>
      DemandChargeLinear(kwhBim, p.demandRateGdmth, p.loadFactorGdmth);
      EnergyGdmthLinear(p, kwhBim);
      Distrib(p.ratePunta * p.splitPunta + p.rateIntermedia * p.splitIntermedia + p.rateBase * p.splitBase,
              DemandPerKwh(p.demandRateGdmth, p.loadFactorGdmth), kwhBim);
      EnergyGdmth(p, kwhBim) + DemandCharge(kwhBim, p.demandRateGdmth, p.loadFactorGdmth) + p.fixedGdmth
    case PDBT(p) =>
      PdbtLinear(p.suministro, PdbtRateSum(p), p.iva, kwhBim);
      if usePdbtCal then CostPdbtCalibrated(kwhBim)
      else (p.suministro + PdbtRateSum(p) * kwhBim) * (1.0 + p.iva)
  }

  /** billCFEBim: the bill of one bimester, a whole number of cents within
      half a cent of the amount. */
  function Bill(t: Tariff, kwhBim: real, usePdbtCal: bool): (b: real)
    ensures Amount(t, kwhBim, usePdbtCal) - 0.005 < b <= Amount(t, kwhBim, usePdbtCal) + 0.005
    ensures Floor(b * 100.0) as real == b * 100.0
  {
    Round2IsCents(Amount(t, kwhBim, usePdbtCal));
    Round2(Amount(t, kwhBim, usePdbtCal))
  }

  // ---------------------------------------------------------------------
  // Reference description of every tariff as "fixed part + marginal rate"
  // ---------------------------------------------------------------------

  /** What a bimester with no consumption costs before rounding. */
  function FixedPart(t: Tariff, usePdbtCal: bool): real
  {
    match t
    case T01(p) => p.fixed01
    case DAC(p) => p.fixedDac
    case GDMT(p) => p.fixedGdmt
    case GDMTH(p) => p.fixedGdmth
    case PDBT(p) => if usePdbtCal then PdbtFixedBimMxn else p.suministro * (1.0 + p.iva)
  }

  /** Cost of one more kWh for the tariffs without blocks: energy rate plus the
      demand charge one kWh adds (two months of rate / (1440 h * load factor)). */
  function MarginalRate(t: Tariff, usePdbtCal: bool): real
  {
    match t
    case T01(p) => 0.0
    case DAC(p) => p.rateDac
    case GDMT(p) => p.rateGdmt + DemandPerKwh(p.demandRateGdmt, p.loadFactorGdmt)
    case GDMTH(p) =>
      p.ratePunta * p.splitPunta + p.rateIntermedia * p.splitIntermedia + p.rateBase * p.splitBase
        + DemandPerKwh(p.demandRateGdmth, p.loadFactorGdmth)
    case PDBT(p) => if usePdbtCal then PdbtRateMxnPerKwh else PdbtRateSum(p) * (1.0 + p.iva)
  }

  function DemandPerKwh(demandRateMonth: real, loadFactor: real): real
  {
    2.0 * demandRateMonth / (DaysPerBimester * 24.0 * Max(loadFactor, MinLoadFactor))
  }

  lemma DemandChargeLinear(kwh: real, demandRateMonth: real, loadFactor: real)
    ensures DemandCharge(kwh, demandRateMonth, loadFactor) == DemandPerKwh(demandRateMonth, loadFactor) * kwh
  {
    var m := Max(loadFactor, MinLoadFactor);
    var kw := EstimateDemandKW(kwh, loadFactor, DaysPerBimester);
    assert kw == kwh / (1440.0 * m);
    assert DemandPerKwh(demandRateMonth, loadFactor) == 2.0 * demandRateMonth / (1440.0 * m);
  }

  /** Hence every tariff except 01 bills round2(fixed part + marginal rate * kWh). */
  lemma BillAffine(t: Tariff, kwhBim: real, usePdbtCal: bool)
    requires !t.T01?
    ensures Bill(t, kwhBim, usePdbtCal) == Round2(FixedPart(t, usePdbtCal) + MarginalRate(t, usePdbtCal) * kwhBim)
  {
  }

  lemma Distrib(a: real, b: real, k: real)
    ensures (a + b) * k == a * k + b * k
  {
  }

  lemma EnergyGdmthLinear(p: ParamsGDMTH, kwh: real)
    ensures EnergyGdmth(p, kwh)
      == (p.ratePunta * p.splitPunta + p.rateIntermedia * p.splitIntermedia + p.rateBase * p.splitBase) * kwh
  {
    assert p.ratePunta * (kwh * p.splitPunta) == (p.ratePunta * p.splitPunta) * kwh;
    assert p.rateIntermedia * (kwh * p.splitIntermedia) == (p.rateIntermedia * p.splitIntermedia) * kwh;
    assert p.rateBase * (kwh * p.splitBase) == (p.rateBase * p.splitBase) * kwh;
  }

  lemma PdbtLinear(fixed: real, rate: real, iva: real, kwh: real)
    ensures (fixed + rate * kwh) * (1.0 + iva) == fixed * (1.0 + iva) + (rate * (1.0 + iva)) * kwh
  {
  }

  /** With no consumption every tariff charges its fixed part, rounded. */
  lemma BillAtZero(t: Tariff, usePdbtCal: bool)
    requires t.T01? ==> t.p01.intermediateBlock >= 0.0
    ensures Bill(t, 0.0, usePdbtCal) == Round2(FixedPart(t, usePdbtCal))
  {
    if t.T01? {
      assert Blocks01(0.0, t.p01.basicBlock, t.p01.intermediateBlock) == Blocks(0.0, 0.0, 0.0);
    } else {
      BillAffine(t, 0.0, usePdbtCal);
      assert FixedPart(t, usePdbtCal) + MarginalRate(t, usePdbtCal) * 0.0 == FixedPart(t, usePdbtCal);
    }
  }

  /** The calibrated PDBT formula ignores the itemised parameters entirely. */
  lemma PdbtCalibratedIgnoresComponents(p: ParamsPDBT, q: ParamsPDBT, kwhBim: real)
    ensures Bill(PDBT(p), kwhBim, true) == Bill(PDBT(q), kwhBim, true)
    ensures Bill(PDBT(p), kwhBim, true) == Round2(PdbtFixedBimMxn + PdbtRateMxnPerKwh * kwhBim)
  {
  }

  /** With the default itemised parameters the six rates add up to 2.16218 $/kWh,
      so 1000 kWh cost (74.48 + 2162.18) * 1.16 = 2594.5256, billed as 2594.53. */
  lemma PdbtDefaultExample()
    ensures PdbtRateSum(DefaultPdbt) == 2.16218
    ensures Bill(PDBT(DefaultPdbt), 1000.0, false) == 2594.53
  {
    var x := (74.48 + 2.16218 * 1000.0) * 1.16;
    assert x == 2594.5256;
    assert Round(x * 100.0) == 259453;
  }

  // ---------------------------------------------------------------------
  // Monotonicity in kWh
  // ---------------------------------------------------------------------

  /** Non-negative rates (and, for the itemised PDBT, an IVA above -100%). */
  predicate NonNegativeRates(t: Tariff)
  {
    match t
    case T01(p) => p.rateBasic >= 0.0 && p.rateIntermediate >= 0.0 && p.rateExceed >= 0.0
    case DAC(p) => p.rateDac >= 0.0
    case GDMT(p) => p.rateGdmt >= 0.0 && p.demandRateGdmt >= 0.0
    case GDMTH(p) =>
      p.ratePunta >= 0.0 && p.rateIntermedia >= 0.0 && p.rateBase >= 0.0
      && p.splitPunta >= 0.0 && p.splitIntermedia >= 0.0 && p.splitBase >= 0.0
      && p.demandRateGdmth >= 0.0
    case PDBT(p) =>
      p.distribucion >= 0.0 && p.transmision >= 0.0 && p.cenace >= 0.0
      && p.energia >= 0.0 && p.capacidad >= 0.0 && p.scnmem >= 0.0 && p.iva >= -1.0
  }

  lemma MarginalRateNonNegative(t: Tariff, usePdbtCal: bool)
    requires !t.T01? && NonNegativeRates(t)
    ensures MarginalRate(t, usePdbtCal) >= 0.0
  {
    match t
    case DAC(p) =>
    case GDMT(p) =>
      DemandPerKwhNonNegative(p.demandRateGdmt, p.loadFactorGdmt);
    case GDMTH(p) =>
      DemandPerKwhNonNegative(p.demandRateGdmth, p.loadFactorGdmth);
      MulMonotone(0.0, p.ratePunta, p.splitPunta);
      MulMonotone(0.0, p.rateIntermedia, p.splitIntermedia);
      MulMonotone(0.0, p.rateBase, p.splitBase);
    case PDBT(p) =>
      MulMonotone(0.0, PdbtRateSum(p), 1.0 + p.iva);
  }

  lemma DemandPerKwhNonNegative(demandRateMonth: real, loadFactor: real)
    requires demandRateMonth >= 0.0
    ensures DemandPerKwh(demandRateMonth, loadFactor) >= 0.0
  {
  }

  lemma Blocks01Monotone(k1: real, k2: real, basicLimit: real, intermediateLimit: real)
    requires k1 <= k2
    ensures var b1 := Blocks01(k1, basicLimit, intermediateLimit);
      var b2 := Blocks01(k2, basicLimit, intermediateLimit);
      b1.basic <= b2.basic && b1.intermediate <= b2.intermediate && b1.exceed <= b2.exceed
  {
  }

  lemma Energy01Monotone(p: Params01, k1: real, k2: real)
    requires p.rateBasic >= 0.0 && p.rateIntermediate >= 0.0 && p.rateExceed >= 0.0
    requires k1 <= k2
    ensures Energy01(p, k1) <= Energy01(p, k2)
  {
    var b1 := Blocks01(k1, p.basicBlock, p.intermediateBlock);
    var b2 := Blocks01(k2, p.basicBlock, p.intermediateBlock);
    Blocks01Monotone(k1, k2, p.basicBlock, p.intermediateBlock);
    WeightedSumMonotone(b1, b2, p.rateBasic, p.rateIntermediate, p.rateExceed);
  }

  lemma WeightedSumMonotone(b1: Blocks, b2: Blocks, r1: real, r2: real, r3: real)
    requires r1 >= 0.0 && r2 >= 0.0 && r3 >= 0.0
    requires b1.basic <= b2.basic && b1.intermediate <= b2.intermediate && b1.exceed <= b2.exceed
    ensures b1.basic * r1 + b1.intermediate * r2 + b1.exceed * r3 <= b2.basic * r1 + b2.intermediate * r2 + b2.exceed * r3
  {
    MulMonotone(b1.basic, b2.basic, r1);
    MulMonotone(b1.intermediate, b2.intermediate, r2);
    MulMonotone(b1.exceed, b2.exceed, r3);
  }

  /** With non-negative rates a larger consumption never gives a smaller bill. */
  lemma BillMonotone(t: Tariff, usePdbtCal: bool, k1: real, k2: real)
    requires NonNegativeRates(t)
    requires k1 <= k2
    ensures Bill(t, k1, usePdbtCal) <= Bill(t, k2, usePdbtCal)
  {
    AmountMonotone(t, usePdbtCal, k1, k2);
    Round2Monotone(Amount(t, k1, usePdbtCal), Amount(t, k2, usePdbtCal));
  }

  lemma AmountMonotone(t: Tariff, usePdbtCal: bool, k1: real, k2: real)
    requires NonNegativeRates(t)
    requires k1 <= k2
    ensures Amount(t, k1, usePdbtCal) <= Amount(t, k2, usePdbtCal)
  {
    if t.T01? {
      Energy01Monotone(t.p01, k1, k2);
    } else {
      MarginalRateNonNegative(t, usePdbtCal);
      AffineMonotone(Amount(t, k1, usePdbtCal), Amount(t, k2, usePdbtCal),
                     FixedPart(t, usePdbtCal), MarginalRate(t, usePdbtCal), k1, k2);
    }
  }


  /** Two amounts on the same line of non-negative slope are ordered like their kWh. */
  lemma AffineMonotone(x1: real, x2: real, f: real, m: real, k1: real, k2: real)
    requires x1 == f + m * k1 && x2 == f + m * k2
    requires m >= 0.0 && k1 <= k2
    ensures x1 <= x2
  {
    MulMonotone(k1, k2, m);
  }
}
