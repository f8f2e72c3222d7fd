# Solar PV quotation tool: a verified Dafny model of its calculation core

The tool prices a grid-tied photovoltaic system for a Mexican CFE customer
from the customer's consumption in each of six bimesters (two-month billing
periods). The model covers its calculation core:

- the CFE tariff bills: 01 tiered blocks, DAC, GDMT, GDMTH, and PDBT in both its
  itemised and calibrated forms;
- net-metering settlement with a carried credit wallet;
- the generation model and the system sizing;
- per-bimester savings;
- the cash-flow schedule with payback, NPV and IRR;
- the rail optimizer over 4700 mm and 2400 mm stock, and the mounting
  bill of materials;
- the separate ANTAI single-row optimizer and its bill of materials;
- the K2 CrossRail layout;
- the NOM-001-SEDE-2012 cable sizing helpers: the 125 % rules of article
  690-8, the cold-Voc table of article 690-7, derating per 310-15, table-driven
  copper AWG selection, and voltage drop within 3 % or 5 %.

Numbers are exact Dafny `real`s:

- `Math.round` is `Floor(x + 1/2)`; `round2` is `Round(100 x) / 100`.
- `Math.ceil` is `-Floor(-x)`.
- `Math.pow` with an integer exponent is a recursive power.
- A `NaN` IRR and a `null` payback are `None` of an `Option`.
- A per-bimester map `{B1..B6}` is a `BMap`, a six-element `seq<real>` whose index `k` is key `B(k+1)`.

Modules, one file each, follow the source:

- `Numeric`: rounding, floor/ceil, power and sum.
- `Bimesters`: the BMap.
- `Generation`: yield, seasonal shape, bimester generation, sizing.
- `Tariffs`: `billCFEBim`.
- `NetMetering`: settlement, solar bills, savings.
- `Finance`: NPV, IRR, cash-flow schedule.
- `Rails`: the page's rail optimizer and BOM.
- `Antai`: `lib/antai.ts`.
- `K2`: `lib/k2.ts`.
- `Cabling`: `lib/cabling.ts`.

Operations that the source writes as loops over mutable locals are methods with
loop invariants, as in the source:

- `bimestralGeneration`, `billsByBim` and `applyNetMeteringBim`;
- `billsWithSolarBim` and the two savings maps;
- `irr` and `roiCashflows`;
- both `pickRailsForLength` versions, `bomAntaiForPanels` and the BOM memo.

The year loop of `roiCashflows` and the rail loop of the BOM memo are methods of
their own, `Finance.Schedule` and `Rails.RailsForRows`, which the operation calls.

Each such method is proved against a specification function, and the lemmas
beside it are stated on that function. The rest of the core is made of const
expressions: the tariff switch, K2 and the cabling helpers. Those are
functions.

Two behaviours of the code worth stating outright:

- With net metering off, each bimester is billed on `max(cons - gen, 0)` and
  its credit trace is zero.
- With the default PDBT components, the six per-kWh rates sum to 2.16218, so
  1000 kWh bill (74.48 + 2162.18) x 1.16 = 2594.5256, that is 2594.53.

## Model

| member | source | states |
|---|---|---|
| Numeric.Round | app/cotizador/page.tsx:78-80 | Math.round lands within half a unit of its argument: x - 1/2 < r <= x + 1/2 |
| Numeric.Round2 | app/cotizador/page.tsx:78-80 | round2 is off by less than half a cent: x - 0.005 < r <= x + 0.005 |
| Numeric.Round2IsCents | app/cotizador/page.tsx:78-80 | round2 always yields a whole number of cents |
| Numeric.Round2OfCents | app/cotizador/page.tsx:78-80 | an amount already in whole cents is left unchanged (round2 is idempotent on its image) |
| Numeric.Round2Monotone | app/cotizador/page.tsx:78-80 | round2 preserves order |
| Bimesters.SumBMap | app/cotizador/page.tsx:120-122 | the annual total is the sum of the six bimesters B1..B6 |
| Bimesters.SumBMapBounds | app/cotizador/page.tsx:120-122 | for a non-negative map the total is non-negative and at least every single bimester |
| Generation.AnnualPerKwGeneration | app/cotizador/page.tsx:89-95 | with PR, availability and losses in [0, 1], the yield per kW lies between 0 and the ideal 365 x psh |
| Generation.MonthlyShape | app/cotizador/page.tsx:98-106 | the normalised shape has 12 factors summing to 12, each proportional to its raw weight (factor = raw x 12 / sum of raw) |
| Generation.BimestralGeneration | app/cotizador/page.tsx:108-118 | bimester k is the rounded sum of months 2k and 2k+1, each month being the annual generation x shape / 12 |
| Generation.BimestersDistributeAnnual | app/cotizador/page.tsx:108-118 | for a shape summing to 12, the six unrounded bimesters add up to exactly systemKW x annualKWhPerKW, and the rounded map's annual total is within 0.03 kWh of it |
| Generation.SystemSizing | app/cotizador/page.tsx:591-604 | neededKW x yield covers coverage x annual load; the panel count is the least whose total watts reach neededKW; systemKW is that capacity rounded to a whole number of cents of a kW, within half a cent; capex is systemKW x cost per kW (line 647) |
| Tariffs.EstimateDemandKW | app/cotizador/page.tsx:180-187 | the demand at load factor max(lf, 1e-6) over days x 24 hours consumes exactly the bimester's kWh; it is non-negative for non-negative kWh |
| Tariffs.Blocks01 | app/cotizador/page.tsx:307-318 | the three 01 blocks are non-negative and bounded by their limits; for non-negative kWh and limits they sum to kWh; a block is used only once the one before it is full |
| Tariffs.Blocks01Monotone | app/cotizador/page.tsx:309-312 | more kWh never shrinks any of the three blocks |
| Tariffs.Energy01Monotone | app/cotizador/page.tsx:313-316 | with non-negative block rates the 01 energy charge is non-decreasing in kWh |
| Tariffs.DemandChargeLinear | app/cotizador/page.tsx:329-330 | the GDMT/GDMTH demand charge (estimated kW x monthly demand rate x 2) is a fixed per-kWh rate times kWh |
| Tariffs.Amount | app/cotizador/page.tsx:300-367 | for DAC, GDMT, GDMTH and PDBT, the unrounded bill is the fixed part plus the marginal rate x kWh, against the independent FixedPart and MarginalRate |
| Tariffs.Bill | app/cotizador/page.tsx:300-367 | the bill is a whole number of cents within half a cent of the unrounded amount |
| Tariffs.BillAffine | app/cotizador/page.tsx:320-366 | for DAC, GDMT, GDMTH and PDBT, the bill is round2 of that affine amount |
| Tariffs.EnergyGdmthLinear | app/cotizador/page.tsx:336-341 | the time-of-use energy charge is (punta rate x punta split + intermedia rate x intermedia split + base rate x base split) x kWh |
| Tariffs.PdbtLinear | app/cotizador/page.tsx:355-366 | the itemised PDBT bill with IVA is a fixed part plus an IVA-inclusive rate per kWh |
| Tariffs.BillAtZero | app/cotizador/page.tsx:300-367 | at 0 kWh every tariff bills round2 of its fixed charge alone |
| Tariffs.CostPdbtCalibrated | app/cotizador/page.tsx:42-47 | the calibrated cost is the fixed 90.047... charge at 0 kWh and never less for a non-negative consumption |
| Tariffs.CalibratedIncrement | app/cotizador/page.tsx:42-47 | every calibrated kWh costs the same 5.3677...: a cost difference is the rate times the kWh difference |
| Tariffs.PdbtCalibratedIgnoresComponents | app/cotizador/page.tsx:42-47 | with the calibrated flag the PDBT bill is round2(90.04738842214351 + 5.367731548519526 x kWh), whatever the component parameters |
| Tariffs.PdbtDefaultExample | app/cotizador/page.tsx:240-249 | the default PDBT components give a rate sum of 2.16218, and 1000 kWh bills 2594.53 |
| Tariffs.MarginalRateNonNegative | app/cotizador/page.tsx:320-366 | with non-negative rates and splits and an IVA of at least -100 %, the marginal rate per kWh is non-negative |
| Tariffs.DemandPerKwhNonNegative | app/cotizador/page.tsx:180-187 | a non-negative demand rate gives a non-negative demand charge per kWh |
| Tariffs.BillMonotone | app/cotizador/page.tsx:300-367 | with non-negative rates, every tariff's bill is non-decreasing in kWh |
| NetMetering.Settle | app/cotizador/page.tsx:398-405 | one settlement step: net >= 0, wallet >= 0, net - wallet = cons - gen - (carryover ? wallet before : 0), and net or wallet is 0 |
| NetMetering.SettleUnique | app/cotizador/page.tsx:398-405 | those three conditions determine the step uniquely |
| NetMetering.WalletBefore | app/cotizador/page.tsx:389-405 | the wallet carried into every bimester is non-negative |
| NetMetering.ApplyNetMetering | app/cotizador/page.tsx:381-409 | with net metering on, net[k] and the trace are the wallet fold's net and round2(wallet after k); off, net = max(cons - gen, 0) and the trace is 0; all values are >= 0 |
| NetMetering.NetOnBalance | app/cotizador/page.tsx:398-405 | in the fold, net - wallet after = cons - gen - (carryover ? wallet before : 0), and one of them is 0 (the wallet is replaced, never accumulated) |
| NetMetering.NetOnAtMostNetOff | app/cotizador/page.tsx:393-405 | a bimester's net with net metering never exceeds its net without it |
| NetMetering.BalancedLeavesNoCredit | app/cotizador/page.tsx:389-405 | when consumption equals generation in every bimester, the wallet is 0 throughout |
| NetMetering.BalancedBillsNothing | app/cotizador/page.tsx:398-406 | then every billed net and every credit trace is 0 |
| NetMetering.CarryoverConservesEnergy | app/cotizador/page.tsx:389-405 | with carryover, the billed nets up to bimester k equal the net balance cons - gen up to k plus the wallet left after it |
| NetMetering.BillsByBim | app/cotizador/page.tsx:372-378 | every bimester is billed on its own consumption |
| NetMetering.BillsWithSolarBim | app/cotizador/page.tsx:411-426 | each bimester is billed on its settled net, and the credit trace is that of the settlement |
| NetMetering.SolarBillNotHigher | app/cotizador/page.tsx:411-426 | with non-negative rates, consumption and generation, the bill with PV never exceeds the bill without it |
| NetMetering.SavingBounds | app/cotizador/page.tsx:632 | the saving of a cent-rounded non-negative bill is between 0 and the bill itself |
| NetMetering.SavingPctBounds | app/cotizador/page.tsx:640-642 | a saving between 0 and the bill is between 0 % and 100 % |
| NetMetering.SavingsBimMxn | app/cotizador/page.tsx:629-635 | each bimester's saving is round2(max(now - solar, 0)), never negative |
| NetMetering.SavingsBimPct | app/cotizador/page.tsx:637-645 | each bimester's percentage is round2(saving / bill x 100) for a positive bill, else 0 |
| Finance.Npv | app/cotizador/page.tsx:430 | at a rate above -100 %, cash flows that are all non-negative have a non-negative NPV, and all non-positive ones a non-positive NPV |
| Finance.Dnpv | app/cotizador/page.tsx:431 | at a rate above -100 %, the derivative is non-positive for non-negative cash flows and non-negative for non-positive ones, so the NPV of an investment's returns falls with the rate |
| Finance.NpvAtZeroIsSum | app/cotizador/page.tsx:430 | at a zero rate the NPV is the plain sum of the cash flows |
| Finance.NpvExample | app/cotizador/page.tsx:430 | the NPV of (-1000, 1100) at 10 % is 0 |
| Finance.Irr | app/cotizador/page.tsx:429-450 | a returned rate lies above -1 and is a root to the tolerance, \|npv(r)\| < 1e-6; a guess that is already a root is returned as is; otherwise the result is None (NaN) |
| Finance.HalveWidth | app/cotizador/page.tsx:441-448 | the bisection bracket, 1.9 wide at the start, halves each step |
| Finance.CumIsRunningSum | app/cotizador/page.tsx:465-480 | the cumulative position of year y is the sum of the cash flows of years 0 .. y |
| Finance.PaybackUnique | app/cotizador/page.tsx:481 | the payback (the first year > 0 with cum >= 0, or none) is unique |
| Finance.TotalPvIsNpv | app/cotizador/page.tsx:479-484 | the sum of the rows' present values is the NPV of their cash flows |
| Finance.Schedule | app/cotizador/page.tsx:465-482 | the yearly loop yields years+1 rows, row y being year y with its cash flow, its present value and the cumulative position, and the payback is the first year >= 1 with cum >= 0, or None |
| Finance.RoiCashflows | app/cotizador/page.tsx:452-487 | years+1 rows, row y being year y with its cash flow, present value and cumulative position; row 0 is -capex; payback is the first year >= 1 with cum >= 0, or None; npv is the NPV of the flows; the IRR is a root or None |
| Finance.PaybackExample | app/cotizador/page.tsx:452-487 | a 100000 investment that saves 20000 a year, with no inflation, O&M or degradation, pays back in year 5 |
| Finance.ExampleCum | app/cotizador/page.tsx:465-480 | in that example the cumulative position of year y is -100000 + 20000 y |
| Rails.MinPieces | app/cotizador/page.tsx:127-147 | the least piece count that can cover L is ceil(L / 4700) |
| Rails.MinLong | app/cotizador/page.tsx:127-147 | the least number of 4700 pieces among those that cover L with the least piece count |
| Rails.OptimalRailsCovers | app/cotizador/page.tsx:137-142 | the closed-form optimum covers L, records its pieces, waste and total correctly, and uses the least piece count |
| Rails.PiecesLowerBound | app/cotizador/page.tsx:137-141 | no cover of L has fewer pieces than ceil(L / 4700) |
| Rails.OptimalIsBest | app/cotizador/page.tsx:135-145 | no pair of non-negative counts, inside or outside the search box, covers L with fewer pieces, or with as many and less waste; an equally good pair is the optimum itself |
| Rails.NoWorseAntisymmetric | app/cotizador/page.tsx:141 | two combinations, each no worse than the other, are equal |
| Rails.PickRailsForLength | app/cotizador/page.tsx:127-147 | the nested search returns the optimum for L = max(0, round(lengthMM)) |
| Rails.SearchBoxContainsOptimum | app/cotizador/page.tsx:132-133 | the box ceil(L/4700)+2 by ceil(L/2400)+3 contains the global optimum |
| Rails.TenMetreExample | app/cotizador/page.tsx:127-147 | 10000 mm is covered by two 4700 and one 2400 piece, with waste 1800 |
| Rails.NoRailIffNoLength | app/cotizador/page.tsx:128-142 | the optimizer returns no piece exactly when the length rounds to 0, and then covers nothing |
| Rails.Rows | app/cotizador/page.tsx:153 | rows = ceil(N / perRow): the rows hold all N panels with less than one row to spare |
| Rails.RowSize | app/cotizador/page.tsx:164 | each row holds between 1 and perRow panels |
| Rails.PanelTotalIs | app/cotizador/page.tsx:163-165 | the row sizes of the first k rows sum to k x perRow, and all rows together sum to N |
| Rails.HardwareTotals | app/cotizador/page.tsx:155-169 | the summed mid clamps are 2 x panels - 2 x rows; the summed legs are the panels plus one per row of more than four |
| Rails.SmallRowsNoExtraLeg | app/cotizador/page.tsx:156 | with at most four panels per row no row gets an extra leg |
| Rails.BomAntaiForPanels | app/cotizador/page.tsx:150-176 | rows = ceil(N / perRow), endClamp = 4, the mid clamps and front = rear legs are the per-row sums, earthingClip = midClamp, groundingLug = (N <= 4 ? 1 : 2), cableClip = (N >= 6 ? N : 0) |
| Rails.RailsForRows | app/cotizador/page.tsx:699-723 | two rails per row, each the optimum for m x dimAlong + max(0, m - 1) x gap, and totals that are the sums of the pieces and splices over all rails |
| Rails.BomMemo | app/cotizador/page.tsx:693-729 | two rails per row, each the optimum for m x dimAlong + max(0, m - 1) x gap, and totals that are the sums over all rails; the hardware is that of bomAntaiForPanels: rows, 4 end clamps, 2N - 2 x rows mid clamps and as many earthing clips, N legs plus one per row of more than four panels (front = rear), grounding lugs and cable clips by N |
| Antai.PickRailsForLength | lib/antai.ts:20-43 | the best admissible pair in the 0..20 box (enough pieces, covering the length, fewest pieces, then least waste), or (ceil(length / 4700), 0) when the box holds none |
| Antai.BoxBestUnique | lib/antai.ts:32-34 | the box-best pair is unique |
| Antai.AnyAdmissibleIff | lib/antai.ts:23-30 | an admissible pair exists exactly when the minimum is at most 40 pieces and the length at most 142000 mm |
| Antai.ShortRowTwoShortPieces | lib/antai.ts:20-34 | with the minimum of 2, any length up to 4800 mm gets two 2400 pieces |
| Antai.AgreesWithPageOptimizer | lib/antai.ts:20-43 | above 4700 mm and up to 94000, the ANTAI pick equals the page optimizer on the same whole length |
| Antai.BomAntaiForPanelsSingleRow | lib/antai.ts:50-104 | 0 panels give an all-zero BOM; otherwise two rails of the ANTAI pick with 2 x max(0, pieces - 1) splices, endClamp = 4, midClamp = 2(N - 1), front = rear = (N <= 4 ? N : N + 1), groundingLug = (N <= 4 ? 1 : 2), earthingClip = midClamp, cableClip = (N >= 6 ? N : 0) |
| Antai.ClampsPerEdge | lib/antai.ts:83-84 | end and mid clamps together are two per panel edge: 2(N + 1) |
| Antai.SingleRowIsOneRowOfPage | lib/antai.ts:84-87 | a single row's mid clamps and legs are those the page's BOM gives a one-row layout |
| K2.SupportsPerRow | lib/k2.ts:109 | at least 2 supports; for a positive pitch they span the row, and one fewer would not (unless 2) |
| K2.SupportPositions | lib/k2.ts:111-113 | exactly one position per support, position i being round((i + 1/2) x actual pitch) |
| K2.Bars48 | lib/k2.ts:139-141 | the least number of 4.8 m bars whose length reaches the total rail length |
| K2.Supports | lib/k2.ts:108-109 | every row has at least two supports |
| K2.K2Compute | lib/k2.ts:67-152 | rows = 2 exactly for the two-row mode; 0 panels give the empty layout; otherwise every length, and the bar count, is its formula (the piece counts are stated by K2.PieceCounts): modEO (width in portrait, height in landscape) plus gap as module pitch, the row length, the pitch (auto or max(300, span)), supports, positions, the N-S spacing (preset, else 3760 or 1570), rail totals and bars |
| K2.RowIsPitches | lib/k2.ts:104-105 | the row is n module pitches long, less one trailing gap |
| K2.SupportsCoverRow | lib/k2.ts:108-109 | for a positive pitch, supports x pitch reaches the row length and one support fewer would not (or there are just 2) |
| K2.EqualSpans | lib/k2.ts:110 | the actual pitch divides the row into equal spans: actual pitch x supports = row length |
| K2.PositionsNonDecreasing | lib/k2.ts:111-113 | for a non-negative module size the support positions are non-decreasing |
| K2.BarsAreLeast | lib/k2.ts:138-142 | bars48m is the least bar count reaching the total rail length, and splices = max(0, bars48m - 1) |
| K2.PieceCounts | lib/k2.ts:145-152 | endClamp = 4 x rows and midClamp = 2 x rows x (n - 1) for n >= 2, else 0, together 2 x rows x (n + 1); lFeet = tiltConnectors = climbers = 2 x rows x supports; earthingClip = midClamp; groundingLug and cableClip by the panel count |
| Cabling.DerateFactor | lib/cabling.ts:38 | the derating factor is the larger of 0.01 and the product of the factors with a zero one read as 1: at least both, and equal to one of them |
| Cabling.PvDcMaxCurrent | lib/cabling.ts:30-34 | iSum = max(0, Np) x max(0, Isc) >= 0 and iMax = 1.25 x iSum (690-8(a)) |
| Cabling.RequiredConductorAmpacity | lib/cabling.ts:37-42 | the required ampacity is the larger of 1.25 x iMax and iMax / f |
| Cabling.RequiredAmpacityMonotone | lib/cabling.ts:37-42 | a larger current never requires less ampacity |
| Cabling.OcpdRecommended | lib/cabling.ts:45-47 | the continuous current is 80 % of the recommended device rating, which is never below a non-negative current |
| Cabling.OcpdWithinAmpacity | lib/cabling.ts:45-47 | the recommended protective device never exceeds the required conductor ampacity |
| Cabling.InverterAcSizing | lib/cabling.ts:50-55 | the inverter circuit's current, minimum ampacity and OCPD, with the OCPD within the ampacity |
| Cabling.MicroBranchSizing | lib/cabling.ts:58-63 | the branch current is n x I for non-negative inputs and 0 when either is non-positive; the ampacity and OCPD are those of that current, with the OCPD within the ampacity |
| Cabling.VocColdFactor | lib/cabling.ts:68-82 | the 690-7 factor lies in [1.00, 1.25], is 1.00 above 25 C and 1.25 at or below -35 C |
| Cabling.VocColdFactorNonIncreasing | lib/cabling.ts:68-82 | the factor never grows as the temperature rises |
| Cabling.CheckStringVocCold | lib/cabling.ts:85-89 | the cold string Voc is module Voc x modules x the factor for the minimum temperature |
| Cabling.ColdVocBounds | lib/cabling.ts:85-89 | the cold string Voc lies between the STC string Voc and 1.25 times it |
| Cabling.VmpHot | lib/cabling.ts:92-95 | at 25 C the hot Vmp is the STC Vmp |
| Cabling.HotVmpNotHigher | lib/cabling.ts:92-95 | with a non-positive temperature coefficient, the Vmp above 25 C is no higher than at STC |
| Cabling.NsMin | lib/cabling.ts:112 | the least string length (at least 1) whose hot Vmp, floored at 1e-6, reaches the MPPT minimum |
| Cabling.NsMax | lib/cabling.ts:113 | for a positive cold module Voc, the greatest string length (at least 1) whose cold Voc stays within the inverter maximum |
| Cabling.SuggestStringRange | lib/cabling.ts:101-120 | nsMin >= 1 and nsMax >= 1, with the hot Vmp and cold factor it used |
| Cabling.Ampacity90 | lib/cabling.ts:130-133 | the 90 °C ampacity lies between 25 A (14 AWG) and 260 A (4/0) |
| Cabling.Ampacity75 | lib/cabling.ts:135-138 | the 75 °C ampacity is at least 20 A and strictly below the 90 °C one for every gauge |
| Cabling.ResistOhmPerM | lib/cabling.ts:140-144 | every gauge has a positive resistance below 0.01 ohm per metre |
| Cabling.TablesOrdered | lib/cabling.ts:125-144 | along the gauge order both ampacity tables strictly increase and resistance strictly decreases |
| Cabling.TerminalBelowConductor | lib/cabling.ts:130-144 | every gauge's 75 C ampacity is positive and below its 90 C ampacity, and its resistance is positive |
| Cabling.FirstFit | lib/cabling.ts:153-162 | the search returns the first gauge from k whose allowable current reaches the requirement, all earlier ones failing |
| Cabling.SelectIndex | lib/cabling.ts:150-166 | the chosen gauge is the first that fits, or 4/0; every thinner gauge fails |
| Cabling.SelectCopperAwg | lib/cabling.ts:150-166 | the choice reports that gauge, min(base90 x f, terminal limit) as allowable (90 C limit only for 90 C terminals, default 75 C), and it fits unless it is 4/0 |
| Cabling.SelectionMonotone | lib/cabling.ts:150-166 | a larger requirement never selects a thinner gauge |
| Cabling.AllowableMonotone | lib/cabling.ts:155-158 | a thicker gauge never has a lower allowable current |
| Cabling.DropPct | lib/cabling.ts:178 | the percentage is the drop over max(1e-9, V), times 100 |
| Cabling.VoltageDropDC | lib/cabling.ts:170-180 | the DC drop is 2 x I x R x L, with its percentage of the voltage |
| Cabling.VoltageDropAC1P | lib/cabling.ts:182-195 | the single-phase drop is 2 x I x R x L x pf with pf defaulting to 1, and its percentage of the voltage |
| Cabling.UnityPowerFactorIsDC | lib/cabling.ts:190-194 | with the default power factor of 1 the single-phase drop equals the DC drop |
| Cabling.ThickerGaugeDropsLess | lib/cabling.ts:140-144 | for a positive current and length, a thicker gauge drops strictly less |
| Cabling.VdExceeds | lib/cabling.ts:213-216 | the limit is 3 % for a branch (ramal) and 5 % for a feeder (alimentador), and exceeding means pct > limit |
| Cabling.FeederLimitLooser | lib/cabling.ts:213-216 | a drop that exceeds the feeder limit also exceeds the branch limit |

## Left out

- The React UI (`Page` rendering, `Card`, `TwoCol`, `KV`, `Table`, `Num`, `app/components`): it is markup and event handlers.
- Persistence through `localStorage` (`useLocalStorageState`, reset): browser state, not calculation.
- CSV export (`downloadCSV`, `exportCSV`): it only formats and downloads data.
- `fmt`: locale formatting through `Intl.NumberFormat`.
- `updateBim`'s `Number(...) || 0` input coercion: a `BMap` always holds six reals, so reading a key never yields `undefined`.
- The JavaScript `x || 0` and `x || 1` coercions: only zero is falsy among exact reals, so `|| 0` is the identity. `|| 1` is `Cabling.OrOne`, which maps only 0 to 1.
- The cosine in `monthlyShape`: `Generation.MonthlyShape` takes the twelve raw weights as input, and `Generation.BimestralGeneration` takes the shape as a parameter.
- The K2 tilt quantities: `tiltDeg`, `riseMM` and `rearLegMM` need `Math.tan`. `frontLegMM` is modelled; it is always 0.
- `rowSpacingLEtoLEmm` in the ANTAI module: it needs sine and tangent.
- `voltageDropAC3P`: it needs the irrational factor sqrt(3).
- IEEE-754 behaviour: NaN and Infinity propagation, rounding drift and `isFinite`. Where a division by zero would produce one, the model states a precondition instead:
  - `Finance.Irr` requires guess > -1;
  - `Finance.RoiCashflows` requires 1 + discount != 0;
  - `K2.K2Compute` requires a non-zero support pitch when there are panels;
  - `Cabling.NsMax` and `Cabling.SuggestStringRange` require a non-zero module Voc;
  - `Generation.SystemSizing` requires a positive yield and panel power;
  - `Generation.MonthlyShape` requires a non-zero sum of weights.
- Finance.Irr: Newton's method is not proved to converge. The contract states only what a returned rate satisfies, and that the loop keeps the iterate above -1 (at or above -0.99 after the first step) and the bisection bracket inside [-0.9, 1.0].
- The page search's `Infinity` starting sentinel: `Rails.PickRailsForLength` starts from no candidate instead. Every length has a candidate in the box, so the result is the same.
- Non-integer `years` in `roiCashflows`: the model takes an integer year count.
- JavaScript object key order: the bimesters are processed in index order B1..B6, the order of the literal maps.
