/** Cable sizing helpers following NOM-001-SEDE-2012: the 125 % rule for
    continuous currents (690-8), the cold open-circuit voltage check (690-7),
    derating for temperature and bundling (310-15), the copper gauge tables
    and first-fit gauge selection, and the voltage-drop checks against the
    3 % (branch) and 5 % (feeder) limits. */
module Cabling {
  import opened Numeric

  // ---------------------------------------------------------------------
  // Currents and ampacities
  // ---------------------------------------------------------------------

  datatype TerminalTemp = T75 | T90

  /** Derating inputs: the 310-15 temperature and bundling factors, and the
      terminal temperature limit (None: the 75 °C default). */
  datatype Derate = Derate(fTemp: real, fBundling: real, terminalTempC: Option<TerminalTemp>)

  /** JavaScript `x || 1` on a number: a zero factor counts as 1. */
  function OrOne(x: real): real
  {
    if x == 0.0 then 1.0 else x
  }

  const MinDerateFactor: real := 0.01

  /** The combined derating factor, never below 0.01. */
  function DerateFactor(d: Derate): (f: real)
    ensures f >= MinDerateFactor
    ensures f >= OrOne(d.fTemp) * OrOne(d.fBundling)
    ensures f == OrOne(d.fTemp) * OrOne(d.fBundling) || f == MinDerateFactor
  {
    Max(MinDerateFactor, OrOne(d.fTemp) * OrOne(d.fBundling))
  }

  datatype DcCurrent = DcCurrent(iSum: real, iMax: real)

  /** pvDcMaxCurrentA: the Isc of the parallel strings added up (negative
      inputs count as zero), and 125 % of it as the maximum current (690-8(a)). */
  function PvDcMaxCurrent(stringsParalelo: real, iscModuloA: real): (c: DcCurrent)
    ensures c.iSum >= 0.0 && c.iMax == 1.25 * c.iSum && c.iMax >= c.iSum
    ensures stringsParalelo <= 0.0 || iscModuloA <= 0.0 ==> c.iSum == 0.0
    ensures stringsParalelo >= 0.0 && iscModuloA >= 0.0 ==> c.iSum == stringsParalelo * iscModuloA
  {
    MulMonotone(0.0, Max(0.0, stringsParalelo), Max(0.0, iscModuloA));
    var iSum := Max(0.0, stringsParalelo) * Max(0.0, iscModuloA);
    DcCurrent(iSum, 1.25 * iSum)
  }

  /** requiredConductorAmpacityA (690-8(b)): the larger of 125 % of the
      current and the current divided by the derating factor. */
  function RequiredConductorAmpacity(iMaxA: real, d: Derate): (r: real)
    ensures r >= 1.25 * iMaxA && r >= iMaxA / DerateFactor(d)
    ensures r == 1.25 * iMaxA || r == iMaxA / DerateFactor(d)
  {
    var f := DerateFactor(d);
    Max(1.25 * iMaxA, iMaxA / f)
  }

  /** More current never asks for less ampacity. */
  lemma RequiredAmpacityMonotone(i1: real, i2: real, d: Derate)
    requires i1 <= i2
    ensures RequiredConductorAmpacity(i1, d) <= RequiredConductorAmpacity(i2, d)
  {
    var f := DerateFactor(d);
    QuotientMonotone(i1, i2, f);
  }

  lemma QuotientMonotone(x: real, y: real, d: real)
    requires x <= y && d > 0.0
    ensures x / d <= y / d
  {
    MulMonotone(x, y, 1.0 / d);
  }

  /** ocpdRecommendedA: an overcurrent device of 125 % of the continuous current. */
  function OcpdRecommended(iMaxA: real): (r: real)
    ensures r * 0.8 == iMaxA
    ensures iMaxA >= 0.0 ==> iMaxA <= r
  {
    1.25 * iMaxA
  }

  /** The recommended protection never exceeds the required conductor ampacity. */
  lemma OcpdWithinAmpacity(iMaxA: real, d: Derate)
    ensures OcpdRecommended(iMaxA) <= RequiredConductorAmpacity(iMaxA, d)
  {
  }

  datatype AcSizing = AcSizing(iMax: real, minAmpacity: real, ocpd: real)

  /** inverterAcSizing: a central inverter sized on its continuous output current. */
  function InverterAcSizing(iOutInvA: real, d: Derate): (s: AcSizing)
    ensures s.iMax == iOutInvA
    ensures s.minAmpacity == RequiredConductorAmpacity(iOutInvA, d)
    ensures s.ocpd == OcpdRecommended(iOutInvA) && s.ocpd <= s.minAmpacity
  {
    AcSizing(iOutInvA, RequiredConductorAmpacity(iOutInvA, d), OcpdRecommended(iOutInvA))
  }

  /** microBranchSizing: a branch of microinverters carries the sum of their
      continuous currents (negative inputs count as zero). */
  function MicroBranchSizing(nMicros: real, iOutMicroA: real, d: Derate): (s: AcSizing)
    ensures s.iMax >= 0.0
    ensures nMicros <= 0.0 || iOutMicroA <= 0.0 ==> s.iMax == 0.0
    ensures nMicros >= 0.0 && iOutMicroA >= 0.0 ==> s.iMax == nMicros * iOutMicroA
    ensures s.minAmpacity == RequiredConductorAmpacity(s.iMax, d)
    ensures s.ocpd == OcpdRecommended(s.iMax) && 0.0 <= s.ocpd <= s.minAmpacity
  {
    MulMonotone(0.0, Max(0.0, nMicros), Max(0.0, iOutMicroA));
    var iMax := Max(0.0, nMicros) * Max(0.0, iOutMicroA);
    AcSizing(iMax, RequiredConductorAmpacity(iMax, d), OcpdRecommended(iMax))
  }

  // ---------------------------------------------------------------------
  // Cold Voc and hot Vmp
  // ---------------------------------------------------------------------

  /** vocColdFactor: the simplified low-temperature Voc correction table (690-7). */
  function VocColdFactor(tempC: real): (r: real)
    ensures 1.0 <= r <= 1.25
    ensures tempC > 25.0 ==> r == 1.0
    ensures tempC <= -35.0 ==> r == 1.25
  {
    if tempC <= -35.0 then 1.25
    else if tempC <= -30.0 then 1.23
    else if tempC <= -25.0 then 1.21
    else if tempC <= -20.0 then 1.20
    else if tempC <= -15.0 then 1.18
    else if tempC <= -10.0 then 1.14
    else if tempC <= -5.0 then 1.12
    else if tempC <= 0.0 then 1.10
    else if tempC <= 5.0 then 1.08
    else if tempC <= 10.0 then 1.06
    else if tempC <= 15.0 then 1.04
    else if tempC <= 25.0 then 1.02
    else 1.00
  }

  /** The colder it gets, the larger the correction. */
  lemma VocColdFactorNonIncreasing(t1: real, t2: real)
    requires t1 <= t2
    ensures VocColdFactor(t1) >= VocColdFactor(t2)
  {
  }

  datatype VocCheck = VocCheck(vocStringFrioV: real, factor: real)

  /** checkStringVocCold: the string's open-circuit voltage at the minimum temperature. */
  function CheckStringVocCold(vocModuloV: real, modPorString: real, tMinC: real): (c: VocCheck)
    ensures c.factor == VocColdFactor(tMinC)
    ensures c.vocStringFrioV == (vocModuloV * modPorString) * c.factor
  {
    var factor := VocColdFactor(tMinC);
    VocCheck(vocModuloV * modPorString * factor, factor)
  }

  /** For a string of non-negative STC voltage, the cold voltage is at least
      the STC voltage and at most 125 % of it. */
  lemma ColdVocBounds(vocModuloV: real, modPorString: real, tMinC: real)
    requires vocModuloV * modPorString >= 0.0
    ensures var v := vocModuloV * modPorString;
      v <= CheckStringVocCold(vocModuloV, modPorString, tMinC).vocStringFrioV <= 1.25 * v
  {
    var v := vocModuloV * modPorString;
    var f := VocColdFactor(tMinC);
    MulMonotone(1.0, f, v);
    MulMonotone(f, 1.25, v);
  }

  /** vmpHot: Vmp at the hot cell temperature with the coefficient beta in %/°C. */
  function VmpHot(moduleVmpStcV: real, betaVmpPctPerC: real, tCellHotC: real): (r: real)
    ensures tCellHotC == 25.0 ==> r == moduleVmpStcV
  {
    var dv := (betaVmpPctPerC / 100.0) * (tCellHotC - 25.0);
    moduleVmpStcV * (1.0 + dv)
  }

  /** With a negative (or zero) coefficient, heating above 25 °C never raises Vmp. */
  lemma HotVmpNotHigher(moduleVmpStcV: real, betaVmpPctPerC: real, tCellHotC: real)
    requires moduleVmpStcV >= 0.0 && betaVmpPctPerC <= 0.0 && tCellHotC >= 25.0
    ensures VmpHot(moduleVmpStcV, betaVmpPctPerC, tCellHotC) <= moduleVmpStcV
  {
    var dv := (betaVmpPctPerC / 100.0) * (tCellHotC - 25.0);
    MulMonotone(betaVmpPctPerC / 100.0, 0.0, tCellHotC - 25.0);
    MulMonotone(1.0 + dv, 1.0, moduleVmpStcV);
  }

  datatype StringInputs = StringInputs(
    inverterVdcMaxV: real, inverterVmpptMinV: real, moduleVocStcV: real, moduleVmpStcV: real,
    betaVmpPctPerC: real, tCellHotC: real, tAmbientColdC: real)

  datatype StringRange = StringRange(nsMin: int, nsMax: int, vmpHotV: real, vocFactorFrio: real)

  const MinVmpHotV: real := 0.000001

  /** The cold string voltage of one module. */
  function ColdModuleVoc(p: StringInputs): real
  {
    p.moduleVocStcV * VocColdFactor(p.tAmbientColdC)
  }

  /** The fewest modules (at least one) whose hot Vmp reaches the tracker's
      minimum voltage; a hot Vmp below 1e-6 V counts as 1e-6 V. */
  function NsMin(p: StringInputs): (n: int)
    ensures n >= 1
    ensures n as real * Max(MinVmpHotV, VmpHot(p.moduleVmpStcV, p.betaVmpPctPerC, p.tCellHotC)) >= p.inverterVmpptMinV
    ensures n == 1 || (n - 1) as real * Max(MinVmpHotV, VmpHot(p.moduleVmpStcV, p.betaVmpPctPerC, p.tCellHotC)) < p.inverterVmpptMinV
  {
    var d := Max(MinVmpHotV, VmpHot(p.moduleVmpStcV, p.betaVmpPctPerC, p.tCellHotC));
    var c := Ceil(p.inverterVmpptMinV / d);
    LeastAbove(p.inverterVmpptMinV, d, c, IntMax(1, c));
    IntMax(1, c)
  }

  /** The most modules (at least one) whose cold Voc stays within the
      inverter's maximum DC voltage. */
  function NsMax(p: StringInputs): (n: int)
    requires p.moduleVocStcV != 0.0
    ensures n >= 1
    ensures ColdModuleVoc(p) > 0.0 ==>
      (n == 1 || n as real * ColdModuleVoc(p) <= p.inverterVdcMaxV)
      && (n + 1) as real * ColdModuleVoc(p) > p.inverterVdcMaxV
  {
    var v := ColdModuleVoc(p);
    var fl := Floor(p.inverterVdcMaxV / v);
    GreatestBelow(p.inverterVdcMaxV, v, fl, IntMax(1, fl));
    IntMax(1, fl)
  }

  /** suggestStringRange: the string length range [nsMin, nsMax] with the
      hot Vmp and the cold Voc factor it was computed from. */
  function SuggestStringRange(p: StringInputs): (r: StringRange)
    requires p.moduleVocStcV != 0.0
    ensures r.nsMin >= 1 && r.nsMax >= 1
    ensures r.vmpHotV == VmpHot(p.moduleVmpStcV, p.betaVmpPctPerC, p.tCellHotC)
    ensures r.vocFactorFrio == VocColdFactor(p.tAmbientColdC)
    ensures r.nsMin == NsMin(p) && r.nsMax == NsMax(p)
  {
    StringRange(NsMin(p), NsMax(p), VmpHot(p.moduleVmpStcV, p.betaVmpPctPerC, p.tCellHotC),
                VocColdFactor(p.tAmbientColdC))
  }

  /** max(1, ceil(x / d)) modules of d volts reach x, and one fewer does not. */
  lemma LeastAbove(x: real, d: real, c: int, n: int)
    requires d > 0.0 && c == Ceil(x / d) && n == IntMax(1, c)
    ensures n as real * d >= x
    ensures n == 1 || (n - 1) as real * d < x
  {
    CeilQuotientBounds(x, d);
    MulMonotone(c as real, n as real, d);
    assert (c - 1) as real * d == c as real * d - d;
  }

  /** max(1, floor(x / d)) modules of d volts stay within x unless the
      minimum of one already exceeds it, and one more exceeds x. */
  lemma GreatestBelow(x: real, d: real, fl: int, n: int)
    requires d != 0.0 && fl == Floor(x / d) && n == IntMax(1, fl)
    ensures d > 0.0 ==> (n == 1 || n as real * d <= x) && (n + 1) as real * d > x
  {
    if d > 0.0 {
      FloorQuotientBounds(x, d);
      MulMonotone(fl as real + 1.0, n as real + 1.0, d);
      assert (fl + 1) as real * d == fl as real * d + d;
    }
  }

  // ---------------------------------------------------------------------
  // Copper tables (base 30 °C ampacity, DC resistance near 20 °C)
  // ---------------------------------------------------------------------

  datatype Awg = Awg14 | Awg12 | Awg10 | Awg8 | Awg6 | Awg4 | Awg3 | Awg2 | Awg1
               | Awg1_0 | Awg2_0 | Awg3_0 | Awg4_0

  /** The gauges from the thinnest to the thickest, the order they are tried in. */
  const Gauges: seq<Awg> := [Awg14, Awg12, Awg10, Awg8, Awg6, Awg4, Awg3, Awg2, Awg1,
                             Awg1_0, Awg2_0, Awg3_0, Awg4_0]

  function Ampacity90(g: Awg): (a: int)
    ensures 25 <= a <= 260
  {
    match g
    case Awg14 => 25 case Awg12 => 30 case Awg10 => 40 case Awg8 => 55 case Awg6 => 75
    case Awg4 => 95 case Awg3 => 110 case Awg2 => 130 case Awg1 => 145
    case Awg1_0 => 170 case Awg2_0 => 195 case Awg3_0 => 225 case Awg4_0 => 260
  }

  function Ampacity75(g: Awg): (a: int)
    ensures 20 <= a < Ampacity90(g)
  {
    match g
    case Awg14 => 20 case Awg12 => 25 case Awg10 => 35 case Awg8 => 50 case Awg6 => 65
    case Awg4 => 85 case Awg3 => 100 case Awg2 => 115 case Awg1 => 130
    case Awg1_0 => 150 case Awg2_0 => 175 case Awg3_0 => 200 case Awg4_0 => 230
  }

  function ResistOhmPerM(g: Awg): (rho: real)
    ensures 0.0 < rho < 0.01
  {
    match g
    case Awg14 => 0.008286 case Awg12 => 0.005211 case Awg10 => 0.003277 case Awg8 => 0.002061
    case Awg6 => 0.001296 case Awg4 => 0.000815 case Awg3 => 0.000646 case Awg2 => 0.000513
    case Awg1 => 0.000406 case Awg1_0 => 0.000323 case Awg2_0 => 0.000257 case Awg3_0 => 0.000204
    case Awg4_0 => 0.000161
  }

  /** Along the gauge order both ampacities grow and the resistance falls,
      strictly; at every gauge the 75 °C ampacity is below the 90 °C one. */
  lemma TablesOrdered(i: int, j: int)
    requires 0 <= i < j < |Gauges|
    ensures Ampacity90(Gauges[i]) < Ampacity90(Gauges[j])
    ensures Ampacity75(Gauges[i]) < Ampacity75(Gauges[j])
    ensures ResistOhmPerM(Gauges[i]) > ResistOhmPerM(Gauges[j])
  {
  }

  lemma TerminalBelowConductor(g: Awg)
    ensures 0 < Ampacity75(g) < Ampacity90(g)
    ensures ResistOhmPerM(g) > 0.0
  {
  }

  // ---------------------------------------------------------------------
  // Gauge selection
  // ---------------------------------------------------------------------

  /** The terminal limit: the 90 °C column only for 90 °C terminals. */
  function TermLimit(g: Awg, t: TerminalTemp): int
  {
    if t == T90 then Ampacity90(g) else Ampacity75(g)
  }

  /** What gauge g may carry: its derated 90 °C ampacity, capped by the terminal. */
  function Allowable(g: Awg, f: real, t: TerminalTemp): real
  {
    Min(Ampacity90(g) as real * f, TermLimit(g, t) as real)
  }

  /** The first gauge at index k or later whose allowable current reaches
      the requirement, or |Gauges| when none does. */
  function FirstFit(requiredAmpA: real, f: real, t: TerminalTemp, k: nat): (j: nat)
    requires k <= |Gauges|
    ensures k <= j <= |Gauges|
    ensures j < |Gauges| ==> Allowable(Gauges[j], f, t) >= requiredAmpA
    ensures forall i :: k <= i < j ==> Allowable(Gauges[i], f, t) < requiredAmpA
    decreases |Gauges| - k
  {
    if k == |Gauges| then k
    else if Allowable(Gauges[k], f, t) >= requiredAmpA then k
    else FirstFit(requiredAmpA, f, t, k + 1)
  }

  datatype AwgChoice = AwgChoice(awg: Awg, allowableA: real, base90A: int, termLimitA: int, fDerate: real)

  function Choice(g: Awg, f: real, t: TerminalTemp): AwgChoice
  {
    AwgChoice(g, Allowable(g, f, t), Ampacity90(g), TermLimit(g, t), f)
  }

  function TerminalOf(d: Derate): TerminalTemp
  {
    if d.terminalTempC.Some? then d.terminalTempC.value else T75
  }

  const Thickest: nat := |Gauges| - 1

  /** The index of the selected gauge: the first fit, or the thickest when none fits. */
  function SelectIndex(requiredAmpA: real, d: Derate): (i: nat)
    ensures i < |Gauges|
    ensures Allowable(Gauges[i], DerateFactor(d), TerminalOf(d)) >= requiredAmpA || i == Thickest
    ensures forall k :: 0 <= k < i ==> Allowable(Gauges[k], DerateFactor(d), TerminalOf(d)) < requiredAmpA
  {
    var j := FirstFit(requiredAmpA, DerateFactor(d), TerminalOf(d), 0);
    if j < |Gauges| then j else Thickest
  }

  /** selectCopperAwg: the thinnest gauge whose allowable current reaches the
      requirement, every thinner one falling short; "4/0" with its data when
      no gauge is enough. */
  function SelectCopperAwg(requiredAmpA: real, d: Derate): (c: AwgChoice)
    ensures c == Choice(Gauges[SelectIndex(requiredAmpA, d)], DerateFactor(d), TerminalOf(d))
    ensures c.allowableA >= requiredAmpA || c.awg == Awg4_0
  {
    Choice(Gauges[SelectIndex(requiredAmpA, d)], DerateFactor(d), TerminalOf(d))
  }

  /** A larger requirement never selects a thinner gauge. */
  lemma SelectionMonotone(r1: real, r2: real, d: Derate)
    requires r1 <= r2
    ensures SelectIndex(r1, d) <= SelectIndex(r2, d)
  {
    FirstFitMonotone(r1, r2, DerateFactor(d), TerminalOf(d), 0);
  }

  lemma FirstFitMonotone(r1: real, r2: real, f: real, t: TerminalTemp, k: nat)
    requires r1 <= r2 && k <= |Gauges|
    ensures FirstFit(r1, f, t, k) <= FirstFit(r2, f, t, k)
  {
  }

  /** With a positive factor, thicker gauges are allowed at least as much current. */
  lemma AllowableMonotone(i: int, j: int, f: real, t: TerminalTemp)
    requires 0 <= i < j < |Gauges| && f > 0.0
    ensures Allowable(Gauges[i], f, t) <= Allowable(Gauges[j], f, t)
  {
    TablesOrdered(i, j);
    MulMonotone(Ampacity90(Gauges[i]) as real, Ampacity90(Gauges[j]) as real, f);
  }

  // ---------------------------------------------------------------------
  // Voltage drop
  // ---------------------------------------------------------------------

  datatype Drop = Drop(vDrop: real, pct: real)

  const MinReferenceV: real := 0.000000001

  /** The drop as a percentage of the reference voltage, floored at 1e-9 V. */
  function DropPct(vDrop: real, voltageV: real): (pct: real)
    ensures pct * Max(MinReferenceV, voltageV) == vDrop * 100.0
  {
    var v := Max(MinReferenceV, voltageV);
    DivMulBack(vDrop, v, vDrop / v);
    (vDrop / v) * 100.0
  }

  lemma DivMulBack(x: real, d: real, q: real)
    requires d != 0.0 && q == x / d
    ensures (q * 100.0) * d == x * 100.0
  {
    assert q * d == x;
  }

  /** voltageDropDCDC: out and back over the one-way length, 2·I·R·L. */
  function VoltageDropDC(awg: Awg, currentA: real, lengthOneWayM: real, voltageV: real): (r: Drop)
    ensures r.vDrop == 2.0 * currentA * ResistOhmPerM(awg) * lengthOneWayM
    ensures r.pct * Max(MinReferenceV, voltageV) == r.vDrop * 100.0
  {
    var vDrop := 2.0 * currentA * ResistOhmPerM(awg) * lengthOneWayM;
    Drop(vDrop, DropPct(vDrop, voltageV))
  }

  /** voltageDropAC1P: the resistive single-phase approximation 2·I·R·L·pf,
      the power factor defaulting to 1. */
  function VoltageDropAC1P(awg: Awg, currentA: real, lengthOneWayM: real, voltageV: real, pf: Option<real>): (r: Drop)
    ensures r.vDrop == 2.0 * currentA * ResistOhmPerM(awg) * lengthOneWayM * (if pf.Some? then pf.value else 1.0)
    ensures r.pct * Max(MinReferenceV, voltageV) == r.vDrop * 100.0
  {
    var pfv := if pf.Some? then pf.value else 1.0;
    var vDrop := 2.0 * currentA * ResistOhmPerM(awg) * lengthOneWayM * pfv;
    Drop(vDrop, DropPct(vDrop, voltageV))
  }

  /** Without a power factor the single-phase drop is the DC drop. */
  lemma UnityPowerFactorIsDC(awg: Awg, currentA: real, lengthOneWayM: real, voltageV: real)
    ensures VoltageDropAC1P(awg, currentA, lengthOneWayM, voltageV, None)
         == VoltageDropDC(awg, currentA, lengthOneWayM, voltageV)
  {
  }

  /** For a positive current and length, a thicker gauge drops strictly less voltage. */
  lemma ThickerGaugeDropsLess(i: int, j: int, currentA: real, lengthOneWayM: real, voltageV: real)
    requires 0 <= i < j < |Gauges| && currentA > 0.0 && lengthOneWayM > 0.0
    ensures VoltageDropDC(Gauges[j], currentA, lengthOneWayM, voltageV).vDrop
          < VoltageDropDC(Gauges[i], currentA, lengthOneWayM, voltageV).vDrop
  {
    TablesOrdered(i, j);
    var k := 2.0 * currentA;
    DropStrict(k, ResistOhmPerM(Gauges[j]), ResistOhmPerM(Gauges[i]), lengthOneWayM,
               VoltageDropDC(Gauges[j], currentA, lengthOneWayM, voltageV).vDrop,
               VoltageDropDC(Gauges[i], currentA, lengthOneWayM, voltageV).vDrop);
  }

  lemma DropStrict(k: real, r1: real, r2: real, len: real, d1: real, d2: real)
    requires k > 0.0 && r1 < r2 && len > 0.0 && d1 == k * r1 * len && d2 == k * r2 * len
    ensures d1 < d2
  {
    MulStrictMonotone(r1, r2, k);
    MulStrictMonotone(k * r1, k * r2, len);
  }

  datatype RunKind = Ramal | Alimentador

  datatype VdCheck = VdCheck(exceeds: bool, limitPct: real)

  /** vdExceeds: 3 % for a branch circuit, 5 % for a feeder, exceeded only strictly. */
  function VdExceeds(pct: real, kind: RunKind): (r: VdCheck)
    ensures r.limitPct == (if kind == Ramal then 3.0 else 5.0)
    ensures r.exceeds <==> pct > r.limitPct
  {
    var limit := if kind == Ramal then 3.0 else 5.0;
    VdCheck(pct > limit, limit)
  }

  /** A drop that is too much for a feeder is too much for a branch. */
  lemma FeederLimitLooser(pct: real)
    ensures VdExceeds(pct, Alimentador).exceeds ==> VdExceeds(pct, Ramal).exceeds
  {
  }
}
