/** The rail optimizer of the quote page: for a required rail length, the
    combination of 4700 mm and 2400 mm stock pieces that covers it with the
    fewest pieces and, among those, the least waste. The search is exhaustive
    over a box; the model proves that it finds the global optimum, which has a
    closed form. */
module Rails {
  import opened Numeric

  /** The search's record: counts of each stock length, the excess, the piece
      count and the covered length, all in whole millimetres. */
  datatype Combo = Combo(n4700: int, n2400: int, waste: int, pieces: int, total: int)

  /** n4700 long and n2400 short pieces cover L. */
  predicate Covers(L: int, a: int, b: int)
  {
    a >= 0 && b >= 0 && 4700 * a + 2400 * b >= L
  }

  /** Combination c is no worse than (a, b): fewer pieces, or as many and no more waste. */
  predicate NoWorse(L: int, c: Combo, a: int, b: int)
  {
    c.pieces < a + b || (c.pieces == a + b && c.waste <= 4700 * a + 2400 * b - L)
  }

  /** The record describes the combination (n4700, n2400) for L. */
  predicate Describes(L: int, c: Combo)
  {
    Covers(L, c.n4700, c.n2400) && c.pieces == c.n4700 + c.n2400
    && c.total == 4700 * c.n4700 + 2400 * c.n2400 && c.waste == c.total - L
  }

  // ---------------------------------------------------------------------
  // The optimum in closed form
  // ---------------------------------------------------------------------

  /** The fewest pieces that can cover L: ceil(L / 4700), as long pieces are the
      ones that cover the most. */
  function MinPieces(L: nat): (p: nat)
    ensures 4700 * p >= L
    ensures p == 0 || 4700 * (p - 1) < L
  {
    (L + 4699) / 4700
  }

  /** With p pieces, every long piece in place of a short one adds 2300 mm:
      the fewest long pieces that let p pieces cover L. */
  function MinLong(L: nat): (a: nat)
    ensures a <= MinPieces(L)
    ensures 2400 * MinPieces(L) + 2300 * a >= L
    ensures a == 0 || 2400 * MinPieces(L) + 2300 * (a - 1) < L
  {
    var p := MinPieces(L);
    if L <= 2400 * p then 0 else (L - 2400 * p + 2299) / 2300
  }

  /** OptimalRails(L): MinLong(L) long pieces and the rest of MinPieces(L) short. */
  function OptimalRails(L: nat): Combo
  {
    var p := MinPieces(L);
    var a := MinLong(L);
    var total := 4700 * a + 2400 * (p - a);
    Combo(a, p - a, total - L, p, total)
  }

  /** The optimum is a genuine covering combination of MinPieces(L) pieces. */
  lemma OptimalRailsCovers(L: nat)
    ensures Describes(L, OptimalRails(L))
    ensures OptimalRails(L).pieces == MinPieces(L)
  {
  }

  /** No combination covers L with fewer pieces than MinPieces(L). */
  lemma PiecesLowerBound(L: nat, a: int, b: int)
    requires Covers(L, a, b)
    ensures a + b >= MinPieces(L)
  {
  }

  /** The optimum is no worse than any covering combination, inside or outside
      any search box, and it is the only one that is as good. */
  lemma OptimalIsBest(L: nat, a: int, b: int)
    requires Covers(L, a, b)
    ensures NoWorse(L, OptimalRails(L), a, b)
    ensures OptimalRails(L).pieces == a + b && OptimalRails(L).waste == 4700 * a + 2400 * b - L ==>
      a == OptimalRails(L).n4700 && b == OptimalRails(L).n2400
  {
    OptimalRailsCovers(L);
    // with MinPieces(L) pieces the covered length is 2400 p + 2300 a, so a >= MinLong(L)
    PiecesLowerBound(L, a, b);
  }

  /** Two records that are each no worse than the other describe the same combination. */
  lemma NoWorseAntisymmetric(L: int, c: Combo, d: Combo)
    requires Describes(L, c) && Describes(L, d)
    requires NoWorse(L, c, d.n4700, d.n2400) && NoWorse(L, d, c.n4700, c.n2400)
    ensures c == d
  {
  }

  // ---------------------------------------------------------------------
  // The search
  // ---------------------------------------------------------------------

  /** The running best covers every combination scanned so far: all (a', b')
      with a' < a, and those with a' == a and b' < b, up to b' <= max24. */
  ghost predicate BestSoFar(L: int, found: Option<Combo>, a: int, b: int, max24: int)
  {
    (found.Some? ==> Describes(L, found.value))
    && forall a', b' :: Covers(L, a', b') && b' <= max24 && (a' < a || (a' == a && b' < b)) ==>
         found.Some? && NoWorse(L, found.value, a', b')
  }

  /** The integer length the search works on: the input rounded, never negative. */
  function RailLength(lengthMM: real): nat
  {
    IntMax(0, Round(lengthMM))
  }

  /** pickRailsForLength of the quote page. The running best starts with
      infinite pieces and waste, modelled as None. */
  method PickRailsForLength(lengthMM: real) returns (best: Combo)
    ensures best == OptimalRails(RailLength(lengthMM))
  {
    var L := RailLength(lengthMM);
    var max47 := Ceil(L as real / 4700.0) + 2;
    var max24 := Ceil(L as real / 2400.0) + 3;
    var found: Option<Combo> := None;
    for a := 0 to max47 + 1
      invariant BestSoFar(L, found, a, 0, max24)
    {
      for b := 0 to max24 + 1
        invariant BestSoFar(L, found, a, b, max24)
      {
        var total := a * 4700 + b * 2400;
        if total < L {
          continue;
        }
        var pieces := a + b;
        var waste := total - L;
        if found.None? || pieces < found.value.pieces
           || (pieces == found.value.pieces && waste < found.value.waste) {
          found := Some(Combo(a, b, waste, pieces, total));
        }
      }
    }
    var opt := OptimalRails(L);
    OptimalRailsCovers(L);
    SearchBoxContainsOptimum(L, max47, max24);
    assert found.Some? && NoWorse(L, found.value, opt.n4700, opt.n2400);
    OptimalIsBest(L, found.value.n4700, found.value.n2400);
    NoWorseAntisymmetric(L, found.value, opt);
    best := found.value;
  }

  /** The bounds ceil(L/4700) + 2 and ceil(L/2400) + 3 of the search box are
      large enough to contain the optimum. */
  lemma SearchBoxContainsOptimum(L: nat, max47: int, max24: int)
    requires max47 == Ceil(L as real / 4700.0) + 2 && max24 == Ceil(L as real / 2400.0) + 3
    ensures OptimalRails(L).n4700 <= max47 && OptimalRails(L).n2400 <= max24
  {
    var c47 := Ceil(L as real / 4700.0);
    var c24 := Ceil(L as real / 2400.0);
    assert 4700 * c47 >= L;
    assert 4700 * c24 >= L by {
      assert 2400 * c24 >= L;
    }
    assert c47 >= MinPieces(L);
    assert c24 >= MinPieces(L);
  }

  /** 10 m of rail: two long and one short piece (11.8 m), 1.8 m of waste. */
  lemma TenMetreExample()
    ensures OptimalRails(RailLength(10000.0)) == Combo(2, 1, 1800, 3, 11800)
  {
    assert Floor(10000.5) == 10000;
    assert RailLength(10000.0) == 10000;
    assert MinPieces(10000) == 3;
    assert MinLong(10000) == 2;
  }

  /** Rail is bought exactly when the length rounds to a positive number of
      millimetres; a shorter (or negative) length takes no piece at all. */
  lemma NoRailIffNoLength(lengthMM: real)
    ensures OptimalRails(RailLength(lengthMM)).pieces == 0 <==> lengthMM < 0.5
    ensures lengthMM < 0.5 ==> OptimalRails(RailLength(lengthMM)).total == 0
  {
    var L := RailLength(lengthMM);
    OptimalRailsCovers(L);
    RailLengthZeroIff(lengthMM, L);
    NoPiecesIff(L);
    NoPieceCoversNothing(OptimalRails(L));
  }

  /** A positive length needs some piece, and no length needs one for 0. */
  lemma NoPiecesIff(L: nat)
    ensures MinPieces(L) == 0 <==> L == 0
  {
  }

  /** A combination of no piece has no total length. */
  lemma NoPieceCoversNothing(c: Combo)
    requires c.n4700 >= 0 && c.n2400 >= 0 && c.pieces == c.n4700 + c.n2400
    requires c.total == 4700 * c.n4700 + 2400 * c.n2400
    ensures c.pieces == 0 ==> c.total == 0
  {
  }

  lemma RailLengthZeroIff(lengthMM: real, L: nat)
    requires L == RailLength(lengthMM)
    ensures L == 0 <==> lengthMM < 0.5
  {
  }

  // ---------------------------------------------------------------------
  // Hardware of the multi-row ANTAI structure (bomAntaiForPanels)
  // ---------------------------------------------------------------------

  /** ceil(N / perRow) rows: the fewest rows of perRow panels that hold N. */
  function Rows(N: nat, perRow: nat): (rows: nat)
    requires perRow >= 1
    ensures N <= rows * perRow < N + perRow
  {
    CeilQuotientBounds(N as real, perRow as real);
    var c := Ceil(N as real / perRow as real);
    assert (c * perRow) as real == c as real * perRow as real;
    c
  }

  /** Panels in row r: full rows, the remainder in the last one. */
  function RowSize(N: nat, perRow: nat, r: nat): (m: int)
    requires perRow >= 1 && r < Rows(N, perRow)
    ensures 1 <= m <= perRow
  {
    var rows := Rows(N, perRow);
    assert (rows - 1) * perRow == rows * perRow - perRow;
    assert r * perRow <= (rows - 1) * perRow by {
      MulIntMonotone(r, rows - 1, perRow);
    }
    if r == rows - 1 then N - r * perRow else perRow
  }

  lemma MulIntMonotone(a: int, b: int, c: nat)
    requires a <= b
    ensures a * c <= b * c
  {
  }

  /** Panels in the first k rows: k full rows, or all N once every row is counted. */
  function PanelTotal(N: nat, perRow: nat, k: nat): int
    requires perRow >= 1 && k <= Rows(N, perRow)
  {
    if k == 0 then 0 else PanelTotal(N, perRow, k - 1) + RowSize(N, perRow, k - 1)
  }

  lemma {:induction false} PanelTotalIs(N: nat, perRow: nat, k: nat)
    requires perRow >= 1 && k <= Rows(N, perRow)
    ensures PanelTotal(N, perRow, k) == if k == Rows(N, perRow) then N else k * perRow
  {
    if k > 0 {
      PanelTotalIs(N, perRow, k - 1);
      assert (k - 1) * perRow + perRow == k * perRow;
    }
  }

  /** Mid clamps of a row of m panels: two per gap between neighbours. */
  function MidPerRow(m: int): int
  {
    IntMax(0, 2 * m - 2)
  }

  /** Front (and as many rear) legs of a row of m panels: one per panel, one more past four. */
  function LegsPerRow(m: int): int
  {
    if m <= 4 then m else IntMax(0, m) + 1
  }

  function MidTotal(N: nat, perRow: nat, k: nat): int
    requires perRow >= 1 && k <= Rows(N, perRow)
  {
    if k == 0 then 0 else MidTotal(N, perRow, k - 1) + MidPerRow(RowSize(N, perRow, k - 1))
  }

  function LegsTotal(N: nat, perRow: nat, k: nat): int
    requires perRow >= 1 && k <= Rows(N, perRow)
  {
    if k == 0 then 0 else LegsTotal(N, perRow, k - 1) + LegsPerRow(RowSize(N, perRow, k - 1))
  }

  /** Rows among the first k that hold more than four panels. */
  function BigRows(N: nat, perRow: nat, k: nat): (n: nat)
    requires perRow >= 1 && k <= Rows(N, perRow)
    ensures n <= k
  {
    if k == 0 then 0 else BigRows(N, perRow, k - 1) + (if RowSize(N, perRow, k - 1) > 4 then 1 else 0)
  }

  /** Every row has at least one panel, so it takes 2m - 2 mid clamps and the
      legs are one per panel plus one per row of more than four panels. */
  lemma {:induction false} HardwareTotals(N: nat, perRow: nat, k: nat)
    requires perRow >= 1 && k <= Rows(N, perRow)
    ensures MidTotal(N, perRow, k) == 2 * PanelTotal(N, perRow, k) - 2 * k
    ensures LegsTotal(N, perRow, k) == PanelTotal(N, perRow, k) + BigRows(N, perRow, k)
  {
    if k > 0 {
      HardwareTotals(N, perRow, k - 1);
    }
  }

  /** Rows of at most four panels never get the extra leg. */
  lemma {:induction false} SmallRowsNoExtraLeg(N: nat, perRow: nat, k: nat)
    requires 1 <= perRow <= 4 && k <= Rows(N, perRow)
    ensures BigRows(N, perRow, k) == 0
  {
    if k > 0 {
      SmallRowsNoExtraLeg(N, perRow, k - 1);
    }
  }

  /** The hardware counts of bomAntaiForPanels. */
  datatype Hardware = Hardware(
    endClamp: int, midClamp: int, frontLeg: int, rearLeg: int,
    groundingLug: int, earthingClip: int, cableClip: int, rows: int)

  /** bomAntaiForPanels: N = max(0, floor(totalPanels)) panels in rows of
      max(1, floor(panelsPerRow)). */
  method BomAntaiForPanels(totalPanels: real, panelsPerRow: real) returns (h: Hardware)
    ensures var N := IntMax(0, Floor(totalPanels));
      var perRow := IntMax(1, Floor(panelsPerRow));
      h.rows == Rows(N, perRow)
      && h.endClamp == 4
      && h.midClamp == 2 * N - 2 * h.rows && h.earthingClip == h.midClamp
      && h.frontLeg == N + BigRows(N, perRow, h.rows) && h.rearLeg == h.frontLeg
      && (perRow <= 4 ==> h.frontLeg == N)
      && h.groundingLug == (if N <= 4 then 1 else 2)
      && h.cableClip == (if N >= 6 then N else 0)
  {
    var N: nat := IntMax(0, Floor(totalPanels));
    var nPerRow: nat := IntMax(1, Floor(panelsPerRow));
    var rows := Rows(N, nPerRow);
    var midClamp, frontLeg, rearLeg := 0, 0, 0;
    for r := 0 to rows
      invariant midClamp == MidTotal(N, nPerRow, r)
      invariant frontLeg == LegsTotal(N, nPerRow, r) && rearLeg == frontLeg
    {
      // every row holds at least one panel (RowSize), so the source's
      // `if (m <= 0) continue` never fires
      var m := if r == rows - 1 then N - r * nPerRow else nPerRow;
      midClamp := midClamp + MidPerRow(m);
      frontLeg := frontLeg + LegsPerRow(m);
      rearLeg := rearLeg + LegsPerRow(m);
    }
    HardwareTotals(N, nPerRow, rows);
    PanelTotalIs(N, nPerRow, rows);
    if nPerRow <= 4 {
      SmallRowsNoExtraLeg(N, nPerRow, rows);
    }
    var groundingLug := if N <= 4 then 1 else 2;
    var earthingClip := midClamp;
    var cableClip := if N >= 6 then N else 0;
    h := Hardware(4, midClamp, frontLeg, rearLeg, groundingLug, earthingClip, cableClip, rows);
  }

  // ---------------------------------------------------------------------
  // Rail totals of the page's BOM
  // ---------------------------------------------------------------------

  datatype Orientation = Portrait | Landscape

  /** Pieces of one rail and the splices joining them. */
  datatype RailPieces = RailPieces(n4700: int, n2400: int, splices: int)

  datatype RailsInfo = RailsInfo(perRowPieces: seq<RailPieces>, total4700: int, total2400: int, totalSplices: int)

  /** The BOM: the rail totals next to the hardware counts. */
  datatype Bom = Bom(rails: RailsInfo, parts: Hardware)

  /** Rail length of a row of m panels: m modules and m - 1 gaps. */
  function RowLength(m: int, dimAlong: real, gap: real): real
  {
    m as real * dimAlong + IntMax(0, m - 1) as real * gap
  }

  /** The pieces of each of the two rails of row r. */
  function RowRailPieces(N: nat, perRow: nat, dimAlong: real, gap: real, r: nat): (p: RailPieces)
    requires perRow >= 1 && r < Rows(N, perRow)
    ensures p.splices == IntMax(0, p.n4700 + p.n2400 - 1)
  {
    var c := OptimalRails(RailLength(RowLength(RowSize(N, perRow, r), dimAlong, gap)));
    RailPieces(c.n4700, c.n2400, IntMax(0, c.n4700 + c.n2400 - 1))
  }

  function Sum4700(ps: seq<RailPieces>): int
  {
    if |ps| == 0 then 0 else Sum4700(ps[..|ps| - 1]) + ps[|ps| - 1].n4700
  }

  function Sum2400(ps: seq<RailPieces>): int
  {
    if |ps| == 0 then 0 else Sum2400(ps[..|ps| - 1]) + ps[|ps| - 1].n2400
  }

  function SumSplices(ps: seq<RailPieces>): int
  {
    if |ps| == 0 then 0 else SumSplices(ps[..|ps| - 1]) + ps[|ps| - 1].splices
  }

  lemma AppendTotals(ps: seq<RailPieces>, p: RailPieces)
    ensures Sum4700(ps + [p]) == Sum4700(ps) + p.n4700
    ensures Sum2400(ps + [p]) == Sum2400(ps) + p.n2400
    ensures SumSplices(ps + [p]) == SumSplices(ps) + p.splices
  {
    assert (ps + [p])[..|ps|] == ps;
  }

  /** The rail loop of the BOM memo: two rails per row, each cut by the
      optimizer, with the totals over all rails. */
  method RailsForRows(totalPanels: nat, panelsPerRow: nat, dimAlong: real, gapMM: real)
    returns (info: RailsInfo)
    requires panelsPerRow >= 1
    ensures var ps := info.perRowPieces;
      |ps| == 2 * Rows(totalPanels, panelsPerRow)
      && (forall i :: 0 <= i < |ps| ==> ps[i] == RowRailPieces(totalPanels, panelsPerRow, dimAlong, gapMM, i / 2))
      && info.total4700 == Sum4700(ps)
      && info.total2400 == Sum2400(ps)
      && info.totalSplices == SumSplices(ps)
  {
    var rows := Rows(totalPanels, panelsPerRow);
    var perRowPieces: seq<RailPieces> := [];
    var total4700, total2400, totalSplices := 0, 0, 0;
    for r := 0 to rows
      invariant |perRowPieces| == 2 * r
      invariant forall i :: 0 <= i < |perRowPieces| ==>
        perRowPieces[i] == RowRailPieces(totalPanels, panelsPerRow, dimAlong, gapMM, i / 2)
      invariant total4700 == Sum4700(perRowPieces) && total2400 == Sum2400(perRowPieces)
      invariant totalSplices == SumSplices(perRowPieces)
    {
      // every row holds at least one panel (RowSize), so the source's
      // `if (m <= 0) continue` never fires
      var m := if r == rows - 1 then totalPanels - r * panelsPerRow else panelsPerRow;
      var rowLen := RowLength(m, dimAlong, gapMM);
      assert m == RowSize(totalPanels, panelsPerRow, r);
      ghost var opt := OptimalRails(RailLength(rowLen));
      ghost var expected := RowRailPieces(totalPanels, panelsPerRow, dimAlong, gapMM, r);
      assert expected == RailPieces(opt.n4700, opt.n2400, IntMax(0, opt.n4700 + opt.n2400 - 1));
      for rail := 0 to 2
        invariant |perRowPieces| == 2 * r + rail
        invariant forall i :: 0 <= i < 2 * r ==>
          perRowPieces[i] == RowRailPieces(totalPanels, panelsPerRow, dimAlong, gapMM, i / 2)
        invariant forall i :: 2 * r <= i < |perRowPieces| ==> perRowPieces[i] == expected
        invariant total4700 == Sum4700(perRowPieces) && total2400 == Sum2400(perRowPieces)
        invariant totalSplices == SumSplices(perRowPieces)
      {
        var combo := PickRailsForLength(rowLen);
        var piece := RailPieces(combo.n4700, combo.n2400, IntMax(0, combo.n4700 + combo.n2400 - 1));
        assert piece == expected;
        AppendTotals(perRowPieces, piece);
        total4700 := total4700 + combo.n4700;
        total2400 := total2400 + combo.n2400;
        totalSplices := totalSplices + IntMax(0, combo.n4700 + combo.n2400 - 1);
        perRowPieces := perRowPieces + [piece];
      }
      forall i | 2 * r <= i < 2 * r + 2
        ensures perRowPieces[i] == RowRailPieces(totalPanels, panelsPerRow, dimAlong, gapMM, i / 2)
      {
        assert i / 2 == r;
      }
    }
    info := RailsInfo(perRowPieces, total4700, total2400, totalSplices);
  }

  /** The BOM memo: the rails of every row and the hardware of bomAntaiForPanels. */
  method BomMemo(totalPanelsIn: real, panelsPerRowIn: real, widthMM: real, heightMM: real,
                 orientation: Orientation, gapMM: real) returns (bom: Bom)
    ensures var N := IntMax(0, Floor(totalPanelsIn));
      var perRow := IntMax(1, Floor(panelsPerRowIn));
      var dimAlong := if orientation == Portrait then widthMM else heightMM;
      var ps := bom.rails.perRowPieces;
      |ps| == 2 * Rows(N, perRow)
      && (forall i :: 0 <= i < |ps| ==> ps[i] == RowRailPieces(N, perRow, dimAlong, gapMM, i / 2))
      && bom.rails.total4700 == Sum4700(ps)
      && bom.rails.total2400 == Sum2400(ps)
      && bom.rails.totalSplices == SumSplices(ps)
      && bom.parts.rows == Rows(N, perRow)
      && bom.parts.endClamp == 4
      && bom.parts.midClamp == 2 * N - 2 * bom.parts.rows && bom.parts.earthingClip == bom.parts.midClamp
      && bom.parts.frontLeg == N + BigRows(N, perRow, bom.parts.rows) && bom.parts.rearLeg == bom.parts.frontLeg
      && (perRow <= 4 ==> bom.parts.frontLeg == N)
      && bom.parts.groundingLug == (if N <= 4 then 1 else 2)
      && bom.parts.cableClip == (if N >= 6 then N else 0)
  {
    var dimAlong := if orientation == Portrait then widthMM else heightMM;
    var panelsPerRow: nat := IntMax(1, Floor(panelsPerRowIn));
    var totalPanels: nat := IntMax(0, Floor(totalPanelsIn));
    var info := RailsForRows(totalPanels, panelsPerRow, dimAlong, gapMM);
    assert Floor(totalPanels as real) == totalPanels && Floor(panelsPerRow as real) == panelsPerRow;
    var parts := BomAntaiForPanels(totalPanels as real, panelsPerRow as real);
    bom := Bom(info, parts);
  }
}
