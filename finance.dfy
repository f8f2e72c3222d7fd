/** The economics of the quote: the yearly cash-flow schedule with payback and
    net present value (roiCashflows), and the internal rate of return found by
    Newton's method with a bisection fallback (irr). */
module Finance {
  import opened Numeric
  import opened Bimesters

  // ---------------------------------------------------------------------
  // Net present value
  // ---------------------------------------------------------------------

  /** npv(r): cash flow i discounted i years at rate r, added left to right. */
  function Npv(cfs: seq<real>, r: real): (v: real)
    requires 1.0 + r != 0.0
    ensures r > -1.0 && (forall i :: 0 <= i < |cfs| ==> cfs[i] >= 0.0) ==> v >= 0.0
    ensures r > -1.0 && (forall i :: 0 <= i < |cfs| ==> cfs[i] <= 0.0) ==> v <= 0.0
  {
    if |cfs| == 0 then 0.0
    else
      var last := cfs[|cfs| - 1] / Pow(1.0 + r, |cfs| - 1);
      QuotientSign(cfs[|cfs| - 1], Pow(1.0 + r, |cfs| - 1), last);
      Npv(cfs[..|cfs| - 1], r) + last
  }

  lemma QuotientSign(x: real, d: real, q: real)
    requires d != 0.0 && q == x / d
    ensures d > 0.0 && x >= 0.0 ==> q >= 0.0
    ensures d > 0.0 && x <= 0.0 ==> q <= 0.0
  {
  }

  lemma ScaledSign(k: real, x: real)
    requires k >= 0.0
    ensures x >= 0.0 ==> k * x >= 0.0
    ensures x <= 0.0 ==> k * x <= 0.0
  {
    if x >= 0.0 {
      MulMonotone(0.0, k, x);
    } else {
      MulMonotone(x, 0.0, k);
    }
  }

  /** dnpv(r): the derivative of npv, -i * cf_i / (1 + r)^(i + 1) summed over i >= 1. */
  function Dnpv(cfs: seq<real>, r: real): (v: real)
    requires 1.0 + r != 0.0
    ensures r > -1.0 && (forall i :: 0 <= i < |cfs| ==> cfs[i] >= 0.0) ==> v <= 0.0
    ensures r > -1.0 && (forall i :: 0 <= i < |cfs| ==> cfs[i] <= 0.0) ==> v >= 0.0
  {
    if |cfs| <= 1 then 0.0
    else
      var term := ((|cfs| - 1) as real * cfs[|cfs| - 1]) / Pow(1.0 + r, |cfs|);
      ScaledSign((|cfs| - 1) as real, cfs[|cfs| - 1]);
      QuotientSign((|cfs| - 1) as real * cfs[|cfs| - 1], Pow(1.0 + r, |cfs|), term);
      Dnpv(cfs[..|cfs| - 1], r) - term
  }

  /** Undiscounted, the present value is the plain sum of the cash flows. */
  lemma {:induction false} NpvAtZeroIsSum(cfs: seq<real>)
    ensures Npv(cfs, 0.0) == Sum(cfs)
  {
    if |cfs| > 0 {
      NpvAtZeroIsSum(cfs[..|cfs| - 1]);
      PowOne(|cfs| - 1);
    }
  }

  /** Paying 1000 now for 1100 a year later returns exactly 10 %. */
  lemma NpvExample()
    ensures Npv([-1000.0, 1100.0], 0.1) == 0.0
  {
    assert [-1000.0, 1100.0][..1] == [-1000.0];
    assert [-1000.0][..0] == [];
    assert Pow(1.1, 1) == 1.1;
  }

  // ---------------------------------------------------------------------
  // IRR
  // ---------------------------------------------------------------------

  const Tolerance: real := 0.000001
  const NewtonSteps: nat := 50
  const BisectionSteps: nat := 200
  const NewtonFloor: real := -0.99
  const BisectionLow: real := -0.9
  const BisectionHigh: real := 1.0

  /** irr: Newton's method from `guess` (at most 50 steps, stopped by a zero
      derivative, the iterate kept at or above -0.99), then bisection over
      [-0.9, 1.0] (at most 200 halvings). None stands for NaN. */
  method Irr(cfs: seq<real>, guess: real) returns (result: Option<real>)
    requires guess > -1.0
    ensures result.Some? ==> result.value > -1.0 && Abs(Npv(cfs, result.value)) < Tolerance
    ensures Abs(Npv(cfs, guess)) < Tolerance ==> result == Some(guess)
  {
    var r := guess;
    for i := 0 to NewtonSteps
      invariant r > -1.0
      invariant i == 0 ==> r == guess
      invariant i > 0 ==> r >= NewtonFloor
      invariant i > 0 ==> Abs(Npv(cfs, guess)) >= Tolerance
    {
      var f := Npv(cfs, r);
      var df := Dnpv(cfs, r);
      if Abs(f) < Tolerance {
        return Some(r);
      }
      if df == 0.0 {
        break;
      }
      r := r - f / df;
      if r <= NewtonFloor {
        r := NewtonFloor;
      }
    }
    var low, high := BisectionLow, BisectionHigh;
    for i := 0 to BisectionSteps
      invariant BisectionLow <= low < high <= BisectionHigh
      invariant high - low == (BisectionHigh - BisectionLow) / Pow(2.0, i)
    {
      var mid := (low + high) / 2.0;
      var fmid := Npv(cfs, mid);
      if Abs(fmid) < Tolerance {
        return Some(mid);
      }
      var flow := Npv(cfs, low);
      HalveWidth(high - low, i);
      if flow * fmid < 0.0 {
        high := mid;
      } else {
        low := mid;
      }
    }
    return None;
  }

  /** The bracket of step i has width 1.9 / 2^i; halving it gives that of step i + 1. */
  lemma HalveWidth(w: real, i: nat)
    requires w == (BisectionHigh - BisectionLow) / Pow(2.0, i)
    ensures w / 2.0 == (BisectionHigh - BisectionLow) / Pow(2.0, i + 1)
  {
    assert Pow(2.0, i + 1) == 2.0 * Pow(2.0, i);
  }

  // ---------------------------------------------------------------------
  // Cash-flow schedule
  // ---------------------------------------------------------------------

  /** What the schedule depends on besides the discount rate: the capital
      cost, the first-year saving (annual bill now minus annual bill with PV),
      the yearly price inflation, O&M as a share of capex and the yearly
      degradation of the PV output. */
  datatype Project = Project(capex: real, savingsY1: real, inflation: real, omRate: real, degradation: real)

  /** Cash flow of year y: the investment in year 0; afterwards the degraded,
      inflated saving less the inflated O&M cost. */
  function CashFlow(p: Project, y: nat): real
  {
    if y == 0 then -p.capex
    else
      var degr := Pow(1.0 - p.degradation, y - 1);
      var priceF := Pow(1.0 + p.inflation, y - 1);
      p.savingsY1 * degr * priceF + (-p.omRate * p.capex * priceF)
  }

  /** The first n cash flows. */
  function CashFlows(p: Project, n: nat): (cfs: seq<real>)
    ensures |cfs| == n && forall y :: 0 <= y < n ==> cfs[y] == CashFlow(p, y)
  {
    seq(n, y requires 0 <= y < n => CashFlow(p, y))
  }

  /** Cumulative cash position at the end of year y. */
  function Cum(p: Project, y: nat): real
  {
    if y == 0 then -p.capex else Cum(p, y - 1) + CashFlow(p, y)
  }

  /** The cumulative position is the running sum of the cash flows, the
      investment of year 0 included. */
  lemma {:induction false} CumIsRunningSum(p: Project, y: nat)
    ensures Cum(p, y) == Sum(CashFlows(p, y + 1))
  {
    assert CashFlows(p, y + 1)[..y] == CashFlows(p, y);
    if y == 0 {
      assert CashFlows(p, 0) == [];
    } else {
      CumIsRunningSum(p, y - 1);
    }
  }

  /** `pb` is the payback over years 1 .. n: the first year whose cumulative
      position is no longer negative, or None when there is no such year. */
  predicate IsPayback(p: Project, n: int, pb: Option<nat>)
  {
    match pb
    case Some(y) => 1 <= y <= n && Cum(p, y) >= 0.0 && forall z :: 1 <= z < y ==> Cum(p, z) < 0.0
    case None => forall z :: 1 <= z <= n ==> Cum(p, z) < 0.0
  }

  lemma PaybackUnique(p: Project, n: int, a: Option<nat>, b: Option<nat>)
    requires IsPayback(p, n, a) && IsPayback(p, n, b)
    ensures a == b
  {
  }

  /** One row of the schedule. */
  datatype Row = Row(year: nat, cf: real, pv: real, cum: real)

  /** Row y as the schedule defines it. */
  function ExpectedRow(p: Project, discount: real, y: nat): Row
    requires 1.0 + discount != 0.0
  {
    Row(y, CashFlow(p, y), CashFlow(p, y) / Pow(1.0 + discount, y), Cum(p, y))
  }

  /** The result of roiCashflows; None for the IRR stands for NaN. */
  datatype Roi = Roi(rows: seq<Row>, payback: Option<nat>, npv: real, irr: Option<real>)

  function TotalPv(rows: seq<Row>): real
  {
    if |rows| == 0 then 0.0 else TotalPv(rows[..|rows| - 1]) + rows[|rows| - 1].pv
  }

  lemma {:induction false} TotalPvIsNpv(rows: seq<Row>, cfs: seq<real>, r: real)
    requires 1.0 + r != 0.0 && |rows| == |cfs|
    requires forall i :: 0 <= i < |rows| ==> rows[i].pv == cfs[i] / Pow(1.0 + r, i)
    ensures TotalPv(rows) == Npv(cfs, r)
  {
    if |rows| > 0 {
      TotalPvIsNpv(rows[..|rows| - 1], cfs[..|cfs| - 1], r);
    }
  }

  /** The initial Newton guess of the IRR. */
  const IrrGuess: real := 0.1

  /** The yearly loop of roiCashflows: one row per year 0 .. years, and the
      payback year found on the way. */
  method Schedule(capex: real, annualNow: real, annualSolarY1: real, discount: real,
                  inflation: real, omRate: real, years: int, degradation: real)
    returns (rows: seq<Row>, payback: Option<nat>)
    requires 1.0 + discount != 0.0
    ensures var p := Project(capex, annualNow - annualSolarY1, inflation, omRate, degradation);
      |rows| == (if years >= 0 then years + 1 else 0)
      && (forall y :: 0 <= y < |rows| ==> rows[y] == ExpectedRow(p, discount, y))
      && IsPayback(p, years, payback)
  {
    ghost var p := Project(capex, annualNow - annualSolarY1, inflation, omRate, degradation);
    rows := [];
    var cum := -capex;
    payback := None;
    var y: nat := 0;
    while y as int <= years
      invariant years >= 0 ==> y as int <= years + 1
      invariant years < 0 ==> y == 0
      invariant |rows| == y
      invariant forall z :: 0 <= z < y ==> rows[z] == ExpectedRow(p, discount, z)
      invariant cum == (if y == 0 then -capex else Cum(p, y - 1))
      invariant IsPayback(p, y - 1, payback)
      decreases years - y
    {
      var cf: real;
      if y == 0 {
        cf := -capex;
      } else {
        var degr := Pow(1.0 - degradation, y - 1);
        var priceF := Pow(1.0 + inflation, y - 1);
        var om := -omRate * capex * priceF;
        var savingsY1 := annualNow - annualSolarY1;
        var savingsY := savingsY1 * degr * priceF;
        cf := savingsY + om;
      }
      assert cf == CashFlow(p, y);
      var pv := cf / Pow(1.0 + discount, y);
      cum := cum + (if y == 0 then 0.0 else cf);
      if payback.None? && cum >= 0.0 && y > 0 {
        payback := Some(y);
      }
      rows := rows + [Row(y, cf, pv, cum)];
      y := y + 1;
    }
  }

  /** roiCashflows over years 0 .. years. */
  method RoiCashflows(capex: real, billsNow: BMap, billsSolar: BMap, discount: real,
                      inflation: real, omRate: real, years: int, degradation: real)
    returns (roi: Roi)
    requires 1.0 + discount != 0.0
    ensures var p := Project(capex, SumBMap(billsNow) - SumBMap(billsSolar), inflation, omRate, degradation);
      var n := if years >= 0 then years + 1 else 0;
      |roi.rows| == n
      && (n > 0 ==> roi.rows[0].cf == -capex && roi.rows[0].cum == -capex)
      && (forall y :: 0 <= y < n ==> roi.rows[y] == ExpectedRow(p, discount, y))
      && IsPayback(p, years, roi.payback)
      && roi.npv == Npv(CashFlows(p, n), discount)
      && (roi.irr.Some? ==> roi.irr.value > -1.0 && Abs(Npv(CashFlows(p, n), roi.irr.value)) < Tolerance)
      && (Abs(Npv(CashFlows(p, n), IrrGuess)) < Tolerance ==> roi.irr == Some(IrrGuess))
  {
    var annualNow := SumBMap(billsNow);
    var annualSolarY1 := SumBMap(billsSolar);
    ghost var p := Project(capex, annualNow - annualSolarY1, inflation, omRate, degradation);
    var rows, payback := Schedule(capex, annualNow, annualSolarY1, discount, inflation, omRate, years, degradation);
    var cfs := seq(|rows|, i requires 0 <= i < |rows| => rows[i].cf);
    assert cfs == CashFlows(p, |rows|);
    TotalPvIsNpv(rows, cfs, discount);
    var irrVal := Irr(cfs, IrrGuess);
    roi := Roi(rows, payback, TotalPv(rows), irrVal);
  }

  /** A 100000 investment that saves 20000 a year, with no inflation, O&M or
      degradation, pays back in year 5 (and the schedule reports exactly that,
      payback being unique). */
  lemma PaybackExample(years: int)
    requires years >= 5
    ensures IsPayback(Project(100000.0, 20000.0, 0.0, 0.0, 0.0), years, Some(5))
  {
    var p := Project(100000.0, 20000.0, 0.0, 0.0, 0.0);
    forall z | 1 <= z < 5
      ensures Cum(p, z) < 0.0
    {
      ExampleCum(z);
    }
    ExampleCum(5);
  }

  lemma {:induction false} ExampleCum(y: nat)
    ensures Cum(Project(100000.0, 20000.0, 0.0, 0.0, 0.0), y) == -100000.0 + 20000.0 * y as real
  {
    if y > 0 {
      ExampleCum(y - 1);
      PowOne(y - 1);
    }
  }
}
