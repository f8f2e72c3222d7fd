/** K2 CrossRail layout (Tilt-Up 1 Row / Multi-Row 2 Rows): row length,
    supports along the east-west rails and their positions, rail lengths,
    4.8 m commercial bars and splices, and the typical piece counts. The
    tilt-dependent rise and rear-leg height are not part of this model. */
module K2 {
  import opened Numeric
  import Rails
  import Antai

  datatype RowMode = TiltUp1Row | MultiRow2Rows

  /** k2Compute's options; None stands for an option left undefined, which
      takes its default (automatic span, 1200 mm manual span, catalogue
      north-south spacing). */
  datatype K2Options = K2Options(
    N: real, panelWMM: real, panelHMM: real, orientation: Rails.Orientation, gapMM: real,
    mode: RowMode, autoSpanEw: Option<bool>, spanEwMM: Option<real>, nsRailSpacingPresetMM: Option<real>)

  datatype K2Out = K2Out(
    modulePitchEOMM: real, rowLenMM: real, supportsPerRow: int,
    supportPitchEOMM: real, supportPitchActualMM: real, supportPositionsEOMM: seq<int>,
    nsRailSpacingC2CMM: real, frontLegMM: real,
    totalEORailsMM: real, totalNSRailsMM: real, totalAuxLegRailsMM: real,
    bars48m: int, splices: int,
    endClamp: int, midClamp: int, lFeet: int, tiltConnectors: int, climbers: int,
    groundingLug: int, earthingClip: int, cableClip: int, rows: int)

  const DefaultSpanEwMM: real := 1200.0
  const MinManualSpanMM: real := 300.0
  const StockMM: real := 4800.0
  const AuxRailPerLegMM: real := 250.0

  /** n = max(0, floor(N)) panels. */
  function Panels(o: K2Options): nat
  {
    IntMax(0, Floor(o.N))
  }

  function RowsOf(mode: RowMode): int
  {
    if mode == MultiRow2Rows then 2 else 1
  }

  /** The module's east-west size: its width in portrait, its height in landscape. */
  function ModuleEO(o: K2Options): real
  {
    if o.orientation == Rails.Portrait then o.panelWMM else o.panelHMM
  }

  /** The east-west support pitch: one module plus gap when automatic,
      otherwise the manual span, at least 300 mm. */
  function SupportPitch(o: K2Options): real
  {
    var auto := if o.autoSpanEw.Some? then o.autoSpanEw.value else true;
    var span := if o.spanEwMM.Some? then o.spanEwMM.value else DefaultSpanEwMM;
    if auto then ModuleEO(o) + Max(0.0, o.gapMM) else Max(MinManualSpanMM, span)
  }

  /** The layout is computable: with panels, the support pitch is not zero. */
  predicate WellFormed(o: K2Options)
  {
    Panels(o) >= 1 ==> SupportPitch(o) != 0.0
  }

  /** max(2, ceil(rowLen / pitch)): at least two supports, and for a positive
      pitch the fewest (but two) whose spans cover the row. */
  function SupportsPerRow(rowLen: real, pitch: real): (s: int)
    requires pitch != 0.0
    ensures s >= 2
    ensures pitch > 0.0 ==> s as real * pitch >= rowLen
    ensures pitch > 0.0 ==> s == 2 || (s - 1) as real * pitch < rowLen
  {
    SupportsCover(rowLen, pitch);
    IntMax(2, Ceil(rowLen / pitch))
  }

  lemma SupportsCover(rowLen: real, pitch: real)
    requires pitch != 0.0
    ensures var c := Ceil(rowLen / pitch);
      pitch > 0.0 ==>
        IntMax(2, c) as real * pitch >= rowLen
        && (IntMax(2, c) == 2 || (IntMax(2, c) - 1) as real * pitch < rowLen)
  {
    var c := Ceil(rowLen / pitch);
    if pitch > 0.0 {
      CeilQuotientBounds(rowLen, pitch);
      if c < 2 {
        MulMonotone(c as real, 2.0, pitch);
      }
      assert (c - 1) as real * pitch == c as real * pitch - pitch;
    }
  }

  /** Support i sits at the middle of the i-th of s equal spans, rounded. */
  function SupportPosition(i: int, actualPitch: real): int
  {
    Round((i as real + 0.5) * actualPitch)
  }

  function SupportPositions(s: nat, actualPitch: real): (ps: seq<int>)
    ensures |ps| == s
    ensures forall i :: 0 <= i < s ==> ps[i] == SupportPosition(i, actualPitch)
  {
    seq(s, i => SupportPosition(i, actualPitch))
  }

  /** Commercial 4.8 m bars: the fewest whose length reaches the total. */
  function Bars48(totalRailsMM: real): (b: int)
    ensures b as real * StockMM >= totalRailsMM
    ensures (b - 1) as real * StockMM < totalRailsMM
  {
    Ceil(totalRailsMM / StockMM)
  }

  /** The n = 0 result: everything zero, the positions empty, the rows kept. */
  function EmptyLayout(rows: int): K2Out
  {
    K2Out(0.0, 0.0, 0, 0.0, 0.0, [], 0.0, 0.0, 0.0, 0.0, 0.0, 0, 0, 0, 0, 0, 0, 0, 0, 0, 0, rows)
  }

  /** One module plus the (non-negative) gap. */
  function ModulePitch(o: K2Options): real
  {
    ModuleEO(o) + Max(0.0, o.gapMM)
  }

  /** The east-west row length: n modules and the n - 1 gaps between them. */
  function RowLen(o: K2Options): real
  {
    Antai.SingleRowLength(Panels(o), ModuleEO(o), o.gapMM)
  }

  function Supports(o: K2Options): (s: int)
    requires WellFormed(o) && Panels(o) >= 1
    ensures s >= 2
  {
    SupportsPerRow(RowLen(o), SupportPitch(o))
  }

  /** The support pitch actually used: the row divided into equal spans. */
  function ActualPitch(o: K2Options): real
    requires WellFormed(o) && Panels(o) >= 1
  {
    RowLen(o) / Supports(o) as real
  }

  /** The north-south rail spacing: the preset when given (zero included),
      otherwise 3760 mm for two rows and 1570 mm for one. */
  function NsSpacing(o: K2Options): real
  {
    if o.nsRailSpacingPresetMM.Some? then o.nsRailSpacingPresetMM.value
    else if o.mode == MultiRow2Rows then 3760.0 else 1570.0
  }

  /** Two east-west rails per row, two north-south rails per support and
      250 mm of auxiliary rail per leg (two legs per support). */
  function TotalEO(o: K2Options): real
  {
    (RowsOf(o.mode) * 2) as real * RowLen(o)
  }

  function TotalNS(o: K2Options): real
    requires WellFormed(o) && Panels(o) >= 1
  {
    (RowsOf(o.mode) * 2 * Supports(o)) as real * NsSpacing(o)
  }

  function TotalAux(o: K2Options): real
    requires WellFormed(o) && Panels(o) >= 1
  {
    (RowsOf(o.mode) * (Supports(o) * 2)) as real * AuxRailPerLegMM
  }

  /** k2Compute without the rise and rear-leg height: with panels, every
      length of the layout and the bar count are the quantities defined
      above (PieceCounts states the piece counts). */
  function K2Compute(o: K2Options): (out: K2Out)
    requires WellFormed(o)
    ensures out.rows == RowsOf(o.mode)
    ensures Panels(o) == 0 ==> out == EmptyLayout(RowsOf(o.mode))
    ensures Panels(o) >= 1 ==>
      out.modulePitchEOMM == ModulePitch(o) && out.rowLenMM == RowLen(o)
      && out.supportsPerRow == Supports(o) && out.supportPitchEOMM == SupportPitch(o)
      && out.supportPitchActualMM == ActualPitch(o)
      && out.supportPositionsEOMM == SupportPositions(Supports(o), ActualPitch(o))
      && out.nsRailSpacingC2CMM == NsSpacing(o) && out.frontLegMM == 0.0
      && out.totalEORailsMM == TotalEO(o) && out.totalNSRailsMM == TotalNS(o)
      && out.totalAuxLegRailsMM == TotalAux(o)
      && out.bars48m == Bars48(TotalEO(o) + TotalNS(o) + TotalAux(o))
  {
    var n := Panels(o);
    var rows := RowsOf(o.mode);
    if n == 0 then EmptyLayout(rows)
    else
      var supportsPerRow := Supports(o);
      var totalRailsMM := TotalEO(o) + TotalNS(o) + TotalAux(o);
      var bars48m := Bars48(totalRailsMM);
      var midClamp := if n >= 2 then rows * 2 * (n - 1) else 0;
      K2Out(ModulePitch(o), RowLen(o), supportsPerRow, SupportPitch(o), ActualPitch(o),
            SupportPositions(supportsPerRow, ActualPitch(o)), NsSpacing(o), 0.0,
            TotalEO(o), TotalNS(o), TotalAux(o), bars48m, IntMax(0, bars48m - 1),
            4 * rows, midClamp, rows * supportsPerRow * 2, rows * supportsPerRow * 2, 2 * rows * supportsPerRow,
            if n <= 4 then rows * 1 else rows * 2, midClamp, if n >= 6 then n * rows else 0, rows)
  }

  /** The row is n module pitches long less one trailing gap. */
  lemma RowIsPitches(o: K2Options)
    requires Panels(o) >= 1
    ensures RowLen(o) + Max(0.0, o.gapMM) == Panels(o) as real * ModulePitch(o)
  {
    Distrib(Panels(o), ModuleEO(o), o.gapMM, RowLen(o), ModulePitch(o));
  }

  lemma Distrib(n: nat, m: real, gap: real, len: real, pitch: real)
    requires n >= 1 && len == Antai.SingleRowLength(n, m, gap) && pitch == m + Max(0.0, gap)
    ensures len + Max(0.0, gap) == n as real * pitch
  {
  }

  /** The supports cover the row at the chosen pitch, with the fewest
      supports (but two) that do. */
  lemma SupportsCoverRow(o: K2Options)
    requires WellFormed(o) && Panels(o) >= 1 && SupportPitch(o) > 0.0
    ensures Supports(o) as real * SupportPitch(o) >= RowLen(o)
    ensures Supports(o) == 2 || (Supports(o) - 1) as real * SupportPitch(o) < RowLen(o)
  {
    CoverFromSupports(Supports(o), SupportPitch(o), RowLen(o));
  }

  lemma CoverFromSupports(s: int, pitch: real, len: real)
    requires pitch != 0.0 && s == SupportsPerRow(len, pitch)
    ensures pitch > 0.0 ==> s as real * pitch >= len && (s == 2 || (s - 1) as real * pitch < len)
  {
  }

  /** The actual pitch divides the row into supportsPerRow equal spans. */
  lemma EqualSpans(o: K2Options)
    requires WellFormed(o) && Panels(o) >= 1
    ensures ActualPitch(o) * Supports(o) as real == RowLen(o)
  {
    DivMul(RowLen(o), Supports(o) as real, ActualPitch(o));
  }

  lemma DivMul(x: real, d: real, q: real)
    requires d != 0.0 && q == x / d
    ensures q * d == x
  {
  }

  /** With a non-negative module size the support positions run from west to
      east. */
  lemma PositionsNonDecreasing(o: K2Options, i: int, j: int)
    requires WellFormed(o) && Panels(o) >= 1 && ModuleEO(o) >= 0.0
    requires 0 <= i <= j < Supports(o)
    ensures SupportPositions(Supports(o), ActualPitch(o))[i] <= SupportPositions(Supports(o), ActualPitch(o))[j]
  {
    ActualPitchNonNegative(o);
    SpanMidpointsOrdered(Supports(o), ActualPitch(o), i, j);
  }

  lemma ActualPitchNonNegative(o: K2Options)
    requires WellFormed(o) && Panels(o) >= 1 && ModuleEO(o) >= 0.0
    ensures ActualPitch(o) >= 0.0
  {
    RowLenNonNegative(Panels(o), ModuleEO(o), o.gapMM, RowLen(o));
    QuotientNonNegative(RowLen(o), Supports(o) as real, ActualPitch(o));
  }

  lemma SpanMidpointsOrdered(s: nat, a: real, i: int, j: int)
    requires a >= 0.0 && 0 <= i <= j < s
    ensures SupportPositions(s, a)[i] <= SupportPositions(s, a)[j]
  {
    MidpointsOrdered(i as real + 0.5, j as real + 0.5, a, (i as real + 0.5) * a, (j as real + 0.5) * a);
  }

  lemma MidpointsOrdered(u: real, v: real, a: real, x: real, y: real)
    requires u <= v && a >= 0.0 && x == u * a && y == v * a
    ensures Round(x) <= Round(y)
  {
    MulMonotone(u, v, a);
    RoundMonotone(x, y);
  }

  lemma RowLenNonNegative(n: nat, m: real, gap: real, len: real)
    requires m >= 0.0 && len == Antai.SingleRowLength(n, m, gap)
    ensures len >= 0.0
  {
    MulMonotone(0.0, n as real, m);
    MulMonotone(0.0, IntMax(0, n - 1) as real, Max(0.0, gap));
  }

  lemma QuotientNonNegative(x: real, d: real, q: real)
    requires x >= 0.0 && d > 0.0 && q == x / d
    ensures q >= 0.0
  {
  }

  /** bars48m is the least whole number of 4.8 m bars reaching the total rail
      length, and one splice joins each pair of consecutive bars. */
  lemma BarsAreLeast(o: K2Options)
    requires WellFormed(o) && Panels(o) >= 1
    ensures var out := K2Compute(o);
      var total := out.totalEORailsMM + out.totalNSRailsMM + out.totalAuxLegRailsMM;
      out.bars48m as real * 4800.0 >= total && (out.bars48m - 1) as real * 4800.0 < total
      && out.splices == IntMax(0, out.bars48m - 1)
  {
  }

  /** Piece counts: on each row four end clamps and two mid clamps per gap
      between neighbouring panels (two clamps per panel edge in all), as many L-feet as
      tilt connectors as climbers (two per support per row), and the
      earthing clips follow the mid clamps. */
  lemma PieceCounts(o: K2Options)
    requires WellFormed(o) && Panels(o) >= 1
    ensures var out := K2Compute(o);
      var n := Panels(o);
      out.endClamp == 4 * out.rows
      && out.midClamp == (if n >= 2 then 2 * out.rows * (n - 1) else 0)
      && out.endClamp + out.midClamp == 2 * out.rows * (n + 1)
      && out.lFeet == out.tiltConnectors == out.climbers == 2 * out.rows * out.supportsPerRow
      && out.earthingClip == out.midClamp
      && out.groundingLug == out.rows * (if n <= 4 then 1 else 2)
      && out.cableClip == (if n >= 6 then n * out.rows else 0)
  {
  }
}
