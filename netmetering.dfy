/** Bimester-by-bimester net-metering settlement of the quote page: the
    credit wallet carried from one bimester to the next, the bills with and
    without the PV system, and the savings per bimester. */
module NetMetering {
  import opened Numeric
  import opened Bimesters
  import opened Tariffs

  /** The outcome of settling one bimester with net metering on: the kWh
      billed and the credit wallet left afterwards. */
  datatype Step = Step(net: real, wallet: real)

  /** One bimester: consumption minus generation minus (with carry-over) the
      wallet brought in. A non-negative balance is billed and empties the
      wallet; a negative one bills nothing and becomes the new wallet. */
  function Settle(cons: real, gen: real, carryover: bool, walletIn: real): (s: Step)
    ensures s.net >= 0.0 && s.wallet >= 0.0
    ensures s.net - s.wallet == cons - gen - (if carryover then walletIn else 0.0)
    ensures s.net == 0.0 || s.wallet == 0.0
  {
    var available := cons - gen - (if carryover then walletIn else 0.0);
    if available >= 0.0 then Step(available, 0.0) else Step(0.0, Abs(available))
  }

  /** The three facts above pin the step down: the billed kWh and the wallet
      are the positive and negative parts of the balance. */
  lemma SettleUnique(cons: real, gen: real, carryover: bool, walletIn: real, s: Step)
    requires s.net >= 0.0 && s.wallet >= 0.0
    requires s.net - s.wallet == cons - gen - (if carryover then walletIn else 0.0)
    requires s.net == 0.0 || s.wallet == 0.0
    ensures s == Settle(cons, gen, carryover, walletIn)
  {
  }

  /** The wallet in hand before bimester k (k = 0 .. 6) when net metering is on. */
  function WalletBefore(cons: BMap, gen: BMap, carryover: bool, k: nat): (w: real)
    requires k <= Count
    ensures w >= 0.0
    decreases k
  {
    if k == 0 then 0.0
    else Settle(cons[k - 1], gen[k - 1], carryover, WalletBefore(cons, gen, carryover, k - 1)).wallet
  }

  /** The kWh billed in bimester k when net metering is on. */
  function NetOn(cons: BMap, gen: BMap, carryover: bool, k: nat): real
    requires k < Count
  {
    Settle(cons[k], gen[k], carryover, WalletBefore(cons, gen, carryover, k)).net
  }

  /** applyNetMeteringBim */
  method ApplyNetMetering(cons: BMap, gen: BMap, netMetering: bool, carryover: bool)
    returns (net: BMap, creditsTrace: BMap)
    ensures forall k :: 0 <= k < Count ==>
      net[k] == (if netMetering then NetOn(cons, gen, carryover, k) else Max(cons[k] - gen[k], 0.0))
    ensures forall k :: 0 <= k < Count ==>
      creditsTrace[k] == (if netMetering then Round2(WalletBefore(cons, gen, carryover, k + 1)) else 0.0)
    ensures forall k :: 0 <= k < Count ==> net[k] >= 0.0 && creditsTrace[k] >= 0.0
  {
    net := Zeros();
    creditsTrace := Zeros();
    var credit := 0.0;
    for i := 0 to Count
      invariant netMetering ==> credit == WalletBefore(cons, gen, carryover, i)
      invariant forall k :: 0 <= k < i ==>
        net[k] == (if netMetering then NetOn(cons, gen, carryover, k) else Max(cons[k] - gen[k], 0.0))
      invariant forall k :: 0 <= k < i ==>
        creditsTrace[k] == (if netMetering then Round2(WalletBefore(cons, gen, carryover, k + 1)) else 0.0)
      invariant forall k :: 0 <= k < i ==> net[k] >= 0.0 && creditsTrace[k] >= 0.0
    {
      var c := cons[i];
      var g := gen[i];
      if !netMetering {
        net := net[i := Max(c - g, 0.0)];
        creditsTrace := creditsTrace[i := 0.0];
      } else {
        var available := c - g - (if carryover then credit else 0.0);
        if available >= 0.0 {
          net := net[i := available];
          credit := 0.0;
        } else {
          net := net[i := 0.0];
          credit := Abs(available);
        }
        Round2NonNegative(credit);
        creditsTrace := creditsTrace[i := Round2(credit)];
      }
    }
  }

  // ---------------------------------------------------------------------
  // Properties of the settlement
  // ---------------------------------------------------------------------

  /** Bimester k replaces the wallet (it is never added to): what is billed
      minus what is left equals the balance of the bimester less the credit used. */
  lemma NetOnBalance(cons: BMap, gen: BMap, carryover: bool, k: nat)
    requires k < Count
    ensures NetOn(cons, gen, carryover, k) - WalletBefore(cons, gen, carryover, k + 1)
      == cons[k] - gen[k] - (if carryover then WalletBefore(cons, gen, carryover, k) else 0.0)
    ensures NetOn(cons, gen, carryover, k) == 0.0 || WalletBefore(cons, gen, carryover, k + 1) == 0.0
  {
  }

  /** Net metering never bills more than plain netting, max(cons - gen, 0). */
  lemma NetOnAtMostNetOff(cons: BMap, gen: BMap, carryover: bool, k: nat)
    requires k < Count
    ensures NetOn(cons, gen, carryover, k) <= Max(cons[k] - gen[k], 0.0)
  {
  }

  /** If every bimester generates exactly what it consumes there is nothing to
      bill and no credit ever builds up. */
  lemma {:induction false} BalancedLeavesNoCredit(cons: BMap, gen: BMap, carryover: bool, k: nat)
    requires forall i :: 0 <= i < Count ==> cons[i] == gen[i]
    requires k <= Count
    ensures WalletBefore(cons, gen, carryover, k) == 0.0
  {
    if k > 0 {
      BalancedLeavesNoCredit(cons, gen, carryover, k - 1);
    }
  }

  lemma BalancedBillsNothing(cons: BMap, gen: BMap, carryover: bool, k: nat)
    requires forall i :: 0 <= i < Count ==> cons[i] == gen[i]
    requires k < Count
    ensures NetOn(cons, gen, carryover, k) == 0.0
    ensures Round2(WalletBefore(cons, gen, carryover, k + 1)) == 0.0
  {
    BalancedLeavesNoCredit(cons, gen, carryover, k);
    BalancedLeavesNoCredit(cons, gen, carryover, k + 1);
    Round2OfCents(0);
  }

  /** Sum of the kWh billed in the first k bimesters with net metering on. */
  function NetOnTotal(cons: BMap, gen: BMap, carryover: bool, k: nat): real
    requires k <= Count
  {
    if k == 0 then 0.0 else NetOnTotal(cons, gen, carryover, k - 1) + NetOn(cons, gen, carryover, k - 1)
  }

  /** Sum of consumption minus generation over the first k bimesters. */
  function BalanceTotal(cons: BMap, gen: BMap, k: nat): real
    requires k <= Count
  {
    if k == 0 then 0.0 else BalanceTotal(cons, gen, k - 1) + (cons[k - 1] - gen[k - 1])
  }

  /** With carry-over the wallet conserves energy: everything billed so far
      equals the balance so far plus the credit still in the wallet. */
  lemma {:induction false} CarryoverConservesEnergy(cons: BMap, gen: BMap, k: nat)
    requires k <= Count
    ensures NetOnTotal(cons, gen, true, k) == BalanceTotal(cons, gen, k) + WalletBefore(cons, gen, true, k)
  {
    if k > 0 {
      CarryoverConservesEnergy(cons, gen, k - 1);
      NetOnBalance(cons, gen, true, k - 1);
    }
  }

  // ---------------------------------------------------------------------
  // Bills and savings per bimester
  // ---------------------------------------------------------------------

  /** billsByBim */
  method BillsByBim(consumption: BMap, t: Tariff, usePdbtCal: bool) returns (out: BMap)
    ensures forall k :: 0 <= k < Count ==> out[k] == Bill(t, consumption[k], usePdbtCal)
  {
    out := Zeros();
    for i := 0 to Count
      invariant forall k :: 0 <= k < i ==> out[k] == Bill(t, consumption[k], usePdbtCal)
    {
      out := out[i := Bill(t, consumption[i], usePdbtCal)];
    }
  }

  /** billsWithSolarBim: the bills of the net kWh, with the credit trace. */
  method BillsWithSolarBim(consumption: BMap, generation: BMap, t: Tariff,
                           netMetering: bool, carryover: bool, usePdbtCal: bool)
    returns (bills: BMap, creditsTrace: BMap)
    ensures forall k :: 0 <= k < Count ==>
      bills[k] == Bill(t, if netMetering then NetOn(consumption, generation, carryover, k)
                          else Max(consumption[k] - generation[k], 0.0), usePdbtCal)
    ensures forall k :: 0 <= k < Count ==>
      creditsTrace[k] == (if netMetering then Round2(WalletBefore(consumption, generation, carryover, k + 1)) else 0.0)
  {
    var net;
    net, creditsTrace := ApplyNetMetering(consumption, generation, netMetering, carryover);
    bills := BillsByBim(net, t, usePdbtCal);
  }

  /** With non-negative rates, non-negative consumption and generation, the
      bill with the PV system never exceeds the bill without it. */
  lemma SolarBillNotHigher(consumption: BMap, generation: BMap, t: Tariff,
                           netMetering: bool, carryover: bool, usePdbtCal: bool, k: nat)
    requires NonNegativeRates(t)
    requires k < Count && consumption[k] >= 0.0 && generation[k] >= 0.0
    ensures Bill(t, if netMetering then NetOn(consumption, generation, carryover, k)
                    else Max(consumption[k] - generation[k], 0.0), usePdbtCal)
      <= Bill(t, consumption[k], usePdbtCal)
  {
    NetOnAtMostNetOff(consumption, generation, carryover, k);
    var net := if netMetering then NetOn(consumption, generation, carryover, k)
               else Max(consumption[k] - generation[k], 0.0);
    assert net <= consumption[k];
    BillMonotone(t, usePdbtCal, net, consumption[k]);
  }

  /** The saving of one bimester in MXN: never negative, rounded to cents. */
  function SavingMxn(billNow: real, billSolar: real): real
  {
    Round2(Max(billNow - billSolar, 0.0))
  }

  /** The saving as a percentage of the current bill; 0 when there is no bill. */
  function SavingPct(billNow: real, saving: real): real
  {
    if billNow > 0.0 then Round2((saving / billNow) * 100.0) else 0.0
  }

  /** A saving lies between 0 and the current bill (when that bill is already
      in cents and the solar bill is not negative). */
  lemma SavingBounds(billNow: real, billSolar: real)
    requires billNow >= 0.0 && billSolar >= 0.0 && Round2(billNow) == billNow
    ensures 0.0 <= SavingMxn(billNow, billSolar) <= billNow
  {
    Round2NonNegative(Max(billNow - billSolar, 0.0));
    Round2Monotone(Max(billNow - billSolar, 0.0), billNow);
  }

  /** A saving that lies between 0 and the current bill is between 0 % and 100 %. */
  lemma SavingPctBounds(billNow: real, saving: real)
    requires 0.0 <= saving <= billNow
    ensures 0.0 <= SavingPct(billNow, saving) <= 100.0
  {
    if billNow > 0.0 {
      var q := saving / billNow;
      assert 0.0 <= q <= 1.0 by {
        assert q * billNow == saving;
        if q > 1.0 {
          MulStrictMonotone(1.0, q, billNow);
        }
      }
      Round2NonNegative(q * 100.0);
      Round2Monotone(q * 100.0, 100.0);
      Round2OfCents(10000);
      assert 10000 as real / 100.0 == 100.0;
    }
  }

  /** savingsBimMXN */
  method SavingsBimMxn(billsNow: BMap, billsSolar: BMap) returns (out: BMap)
    ensures forall k :: 0 <= k < Count ==> out[k] == SavingMxn(billsNow[k], billsSolar[k])
    ensures forall k :: 0 <= k < Count ==> out[k] >= 0.0
  {
    out := Zeros();
    for i := 0 to Count
      invariant forall k :: 0 <= k < i ==> out[k] == SavingMxn(billsNow[k], billsSolar[k])
      invariant forall k :: 0 <= k < i ==> out[k] >= 0.0
    {
      Round2NonNegative(Max(billsNow[i] - billsSolar[i], 0.0));
      out := out[i := Round2(Max(billsNow[i] - billsSolar[i], 0.0))];
    }
  }

  /** savingsBimPct */
  method SavingsBimPct(billsNow: BMap, savings: BMap) returns (out: BMap)
    ensures forall k :: 0 <= k < Count ==> out[k] == SavingPct(billsNow[k], savings[k])
  {
    out := Zeros();
    for i := 0 to Count
      invariant forall k :: 0 <= k < i ==> out[k] == SavingPct(billsNow[k], savings[k])
    {
      var base := billsNow[i];
      var sav := savings[i];
      out := out[i := if base > 0.0 then Round2((sav / base) * 100.0) else 0.0];
    }
  }
}
