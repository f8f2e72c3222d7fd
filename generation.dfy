/** Generation model and system sizing of the quote page: the yearly yield of
    one installed kW, the normalised seasonal shape, its aggregation into six
    bimesters, and the panel count that covers a target share of the load. */
module Generation {
  import opened Numeric
  import opened Bimesters

  /** annualPerKwGeneration: kWh per installed kW per year. With ratios in
      [0, 1] the real yield lies between zero and the ideal yield of `psh`
      full-sun hours every day of the year. */
  function AnnualPerKwGeneration(psh: real, pr: real, availability: real, extraLosses: real): (r: real)
    ensures psh >= 0.0 && 0.0 <= pr <= 1.0 && 0.0 <= availability <= 1.0 && 0.0 <= extraLosses <= 1.0
      ==> 0.0 <= r <= psh * 365.0
  {
    var e := pr * availability * (1.0 - extraLosses);
    UnitProduct(pr, availability);
    UnitProduct(pr * availability, 1.0 - extraLosses);
    ScaleDown(psh * 365.0, e);
    (psh * 365.0) * e
  }

  lemma UnitProduct(x: real, y: real)
    ensures 0.0 <= x <= 1.0 && 0.0 <= y <= 1.0 ==> 0.0 <= x * y <= 1.0
  {
    if 0.0 <= x <= 1.0 && 0.0 <= y <= 1.0 {
      assert 0.0 <= x * y by {
        MulMonotone(0.0, x, y);
      }
      assert x * y <= y by {
        MulMonotone(x, 1.0, y);
      }
    }
  }

  lemma ScaleDown(x: real, e: real)
    ensures x >= 0.0 && 0.0 <= e <= 1.0 ==> 0.0 <= x * e <= x
  {
    if x >= 0.0 && 0.0 <= e <= 1.0 {
      MulMonotone(0.0, e, x);
      MulMonotone(e, 1.0, x);
    }
  }

  /** monthlyShape without its cosine: the twelve raw weights are divided by
      their mean and then rescaled so that they add up to 12. */
  function MonthlyShape(raw: seq<real>): (shape: seq<real>)
    requires |raw| == 12 && Sum(raw) != 0.0
    ensures |shape| == 12
    ensures Sum(shape) == 12.0
    ensures forall i :: 0 <= i < 12 ==> shape[i] == raw[i] * (12.0 / Sum(raw))
  {
    var mean := Sum(raw) / 12.0;
    var scaled := seq(12, i requires 0 <= i < 12 => raw[i] / mean);
    SumScale(raw, 1.0 / mean, scaled);
    var total := Sum(scaled);
    assert total == 12.0;
    var shape := seq(12, i requires 0 <= i < 12 => (scaled[i] * 12.0) / total);
    SumScale(raw, 12.0 / Sum(raw), shape);
    shape
  }

  /** The kWh generated in month i: the annual total times shape[i] / 12. */
  function MonthlyGeneration(systemKW: real, annualKWhPerKW: real, shape: seq<real>, i: nat): real
    requires i < |shape|
  {
    (systemKW * annualKWhPerKW) * (shape[i] / 12.0)
  }

  /** The unrounded kWh of bimester k: its two months added. */
  function BimesterGeneration(systemKW: real, annualKWhPerKW: real, shape: seq<real>, k: nat): real
    requires |shape| == 12 && k < Count
  {
    MonthlyGeneration(systemKW, annualKWhPerKW, shape, 2 * k)
      + MonthlyGeneration(systemKW, annualKWhPerKW, shape, 2 * k + 1)
  }

  /** bimestralGeneration: fills the six bimesters with their rounded generation. */
  method BimestralGeneration(systemKW: real, annualKWhPerKW: real, shape: seq<real>) returns (out: BMap)
    requires |shape| == 12
    ensures forall k :: 0 <= k < Count ==>
      out[k] == Round2(BimesterGeneration(systemKW, annualKWhPerKW, shape, k))
  {
    var monthly := seq(12, i requires 0 <= i < 12 => (systemKW * annualKWhPerKW) * (shape[i] / 12.0));
    out := Zeros();
    for i := 0 to Count
      invariant forall k :: 0 <= k < i ==>
        out[k] == Round2(BimesterGeneration(systemKW, annualKWhPerKW, shape, k))
    {
      assert monthly[2 * i] + monthly[2 * i + 1] == BimesterGeneration(systemKW, annualKWhPerKW, shape, i);
      out := out[i := Round2(monthly[2 * i] + monthly[2 * i + 1])];
    }
  }

  lemma Sum12(s: seq<real>)
    requires |s| == 12
    ensures Sum(s) == s[0] + s[1] + s[2] + s[3] + s[4] + s[5] + s[6] + s[7] + s[8] + s[9] + s[10] + s[11]
  {
    assert s[..0] == [];
    SumPrefixStep(s, 0);
    SumPrefixStep(s, 1);
    SumPrefixStep(s, 2);
    SumPrefixStep(s, 3);
    SumPrefixStep(s, 4);
    SumPrefixStep(s, 5);
    SumPrefixStep(s, 6);
    SumPrefixStep(s, 7);
    SumPrefixStep(s, 8);
    SumPrefixStep(s, 9);
    SumPrefixStep(s, 10);
    SumPrefixStep(s, 11);
    assert s[..12] == s;
  }

  /** With a shape that sums to 12, the six bimesters distribute exactly the
      annual generation systemKW * annualKWhPerKW, and the rounded map that
      bimestralGeneration returns is within 3 hundredths of a kWh of it. */
  lemma BimestersDistributeAnnual(systemKW: real, annualKWhPerKW: real, shape: seq<real>, out: BMap)
    requires |shape| == 12 && Sum(shape) == 12.0
    requires forall k :: 0 <= k < Count ==>
      out[k] == Round2(BimesterGeneration(systemKW, annualKWhPerKW, shape, k))
    ensures BimesterGeneration(systemKW, annualKWhPerKW, shape, 0)
      + BimesterGeneration(systemKW, annualKWhPerKW, shape, 1)
      + BimesterGeneration(systemKW, annualKWhPerKW, shape, 2)
      + BimesterGeneration(systemKW, annualKWhPerKW, shape, 3)
      + BimesterGeneration(systemKW, annualKWhPerKW, shape, 4)
      + BimesterGeneration(systemKW, annualKWhPerKW, shape, 5) == systemKW * annualKWhPerKW
    ensures systemKW * annualKWhPerKW - 0.03 < SumBMap(out) <= systemKW * annualKWhPerKW + 0.03
  {
    var total := systemKW * annualKWhPerKW;
    var monthly := seq(12, i requires 0 <= i < 12 => MonthlyGeneration(systemKW, annualKWhPerKW, shape, i));
    SumScale(shape, total / 12.0, monthly);
    Sum12(monthly);
  }

  /** The sizing block of the page: kW needed to cover `targetCoverage` of the
      annual load, the panel count, the rounded installed kW and the capital cost. */
  datatype Sizing = Sizing(neededKW: real, panels: int, systemKW: real, capex: real)

  function SystemSizing(annualLoad: real, targetCoverage: real, annualKWhPerKW: real,
                        panelW: real, costPerKW: real): (s: Sizing)
    requires annualKWhPerKW > 0.0 && panelW > 0.0
    ensures s.neededKW * annualKWhPerKW == annualLoad * targetCoverage
    ensures s.neededKW * 1000.0 <= s.panels as real * panelW < s.neededKW * 1000.0 + panelW
    ensures s.panels as real * panelW / 1000.0 - 0.005 < s.systemKW <= s.panels as real * panelW / 1000.0 + 0.005
    ensures Floor(s.systemKW * 100.0) as real == s.systemKW * 100.0
    ensures s.capex == s.systemKW * costPerKW
  {
    var neededKW := (annualLoad * targetCoverage) / annualKWhPerKW;
    var panels := Ceil((neededKW * 1000.0) / panelW);
    CeilQuotientBounds(neededKW * 1000.0, panelW);
    var systemKW := Round2((panels as real * panelW) / 1000.0);
    Round2IsCents((panels as real * panelW) / 1000.0);
    Sizing(neededKW, panels, systemKW, systemKW * costPerKW)
  }
}
