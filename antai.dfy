/** The ANTAI single-row module: a second rail optimizer, which searches a
    fixed 0..20 x 0..20 box, demands a minimum number of pieces per rail
    (2 by default) and works on the unrounded length, and the approximate
    ANTAI hardware rules for one row of N panels. */
module Antai {
  import opened Numeric
  import Rails

  /** Highest count of each stock length the search tries. */
  const BoxMax: int := 20

  /** Length covered by a long and b short pieces, in mm. */
  function Covered(a: int, b: int): int
  {
    4700 * a + 2400 * b
  }

  predicate InBox(a: int, b: int)
  {
    0 <= a <= 20 && 0 <= b <= 20
  }

  /** The search accepts (a, b) when it has enough pieces and covers the length. */
  predicate Admissible(lengthMM: real, minPieces: int, a: int, b: int)
  {
    a + b >= minPieces && Covered(a, b) as real >= lengthMM
  }

  /** (a, b) has fewer pieces than (a', b'), or as many and no more waste. */
  predicate NoWorse(lengthMM: real, a: int, b: int, a': int, b': int)
  {
    a + b < a' + b' || (a + b == a' + b' && Covered(a, b) as real - lengthMM <= Covered(a', b') as real - lengthMM)
  }

  /** (a, b) is the best admissible combination in the box. */
  ghost predicate IsBoxBest(lengthMM: real, minPieces: int, a: int, b: int)
  {
    InBox(a, b) && Admissible(lengthMM, minPieces, a, b)
    && forall a', b' :: InBox(a', b') && Admissible(lengthMM, minPieces, a', b') ==> NoWorse(lengthMM, a, b, a', b')
  }

  ghost predicate AnyAdmissible(lengthMM: real, minPieces: int)
  {
    exists a, b :: InBox(a, b) && Admissible(lengthMM, minPieces, a, b)
  }

  /** What the optimizer returns: the best combination in the box, or
      ceil(length / 4700) long pieces when the box holds no admissible one. */
  ghost predicate IsAntaiPick(lengthMM: real, minPieces: int, a: int, b: int)
  {
    if AnyAdmissible(lengthMM, minPieces) then IsBoxBest(lengthMM, minPieces, a, b)
    else a == Ceil(lengthMM / 4700.0) && b == 0
  }

  /** The running best, after scanning every (a', b') in the box with a' < a,
      or a' == a and b' < b. */
  ghost predicate ScannedBest(lengthMM: real, minPieces: int, found: Option<(int, int)>, a: int, b: int)
  {
    (found.Some? ==> InBox(found.value.0, found.value.1)
                     && Admissible(lengthMM, minPieces, found.value.0, found.value.1))
    && forall a', b' :: InBox(a', b') && Admissible(lengthMM, minPieces, a', b') && (a' < a || (a' == a && b' < b)) ==>
         found.Some? && NoWorse(lengthMM, found.value.0, found.value.1, a', b')
  }

  /** pickRailsForLength(lengthMM, minPiecesPerRail) of the ANTAI module. */
  method PickRailsForLength(lengthMM: real, minPiecesPerRail: int) returns (n4700: int, n2400: int)
    ensures IsAntaiPick(lengthMM, minPiecesPerRail, n4700, n2400)
  {
    var best: Option<(int, int)> := None;
    for a := 0 to BoxMax + 1
      invariant ScannedBest(lengthMM, minPiecesPerRail, best, a, 0)
    {
      for b := 0 to BoxMax + 1
        invariant ScannedBest(lengthMM, minPiecesPerRail, best, a, b)
      {
        var pieces := a + b;
        if pieces < minPiecesPerRail {
          continue;
        }
        var total := 4700 * a + 2400 * b;
        if (total as real) < lengthMM {
          continue;
        }
        var waste := total as real - lengthMM;
        if best.None? || pieces < best.value.0 + best.value.1
           || (pieces == best.value.0 + best.value.1 && waste < Covered(best.value.0, best.value.1) as real - lengthMM) {
          best := Some((a, b));
        }
      }
    }
    if best.None? {
      n4700 := Ceil(lengthMM / 4700.0);
      n2400 := 0;
    } else {
      n4700, n2400 := best.value.0, best.value.1;
    }
  }

  /** The best combination in the box is unique, so the optimizer's result is
      determined by its contract. */
  lemma BoxBestUnique(lengthMM: real, minPieces: int, a: int, b: int, c: int, d: int)
    requires IsBoxBest(lengthMM, minPieces, a, b) && IsBoxBest(lengthMM, minPieces, c, d)
    ensures a == c && b == d
  {
    assert NoWorse(lengthMM, a, b, c, d) && NoWorse(lengthMM, c, d, a, b);
  }

  /** The box holds an admissible combination exactly when 20 + 20 pieces are
      enough and 20 of each cover the length (142 m). */
  lemma AnyAdmissibleIff(lengthMM: real, minPieces: int)
    ensures AnyAdmissible(lengthMM, minPieces) <==> minPieces <= 40 && lengthMM <= 142000.0
  {
    if minPieces <= 40 && lengthMM <= 142000.0 {
      assert InBox(20, 20) && Admissible(lengthMM, minPieces, 20, 20);
    }
  }

  /** With the default minimum of two pieces every length up to 4800 mm is
      cut from two short pieces. */
  lemma ShortRowTwoShortPieces(lengthMM: real)
    requires lengthMM <= 4800.0
    ensures IsAntaiPick(lengthMM, 2, 0, 2)
  {
    assert InBox(0, 2) && Admissible(lengthMM, 2, 0, 2);
  }

  /** For whole lengths above one long piece and up to 94 m the two optimizers
      agree: the box then holds the global optimum of the quote page's search. */
  lemma AgreesWithPageOptimizer(L: nat)
    requires 4700 < L <= 94000
    ensures IsAntaiPick(L as real, 2, Rails.OptimalRails(L).n4700, Rails.OptimalRails(L).n2400)
  {
    var c := Rails.OptimalRails(L);
    Rails.OptimalRailsCovers(L);
    assert InBox(c.n4700, c.n2400) && Admissible(L as real, 2, c.n4700, c.n2400);
    forall a', b' | InBox(a', b') && Admissible(L as real, 2, a', b')
      ensures NoWorse(L as real, c.n4700, c.n2400, a', b')
    {
      Rails.OptimalIsBest(L, a', b');
    }
  }

  // ---------------------------------------------------------------------
  // Single-row BOM
  // ---------------------------------------------------------------------

  datatype AntaiBom = AntaiBom(
    total4700: int, total2400: int, totalSplices: int,
    endClamp: int, midClamp: int, frontLeg: int, rearLeg: int,
    groundingLug: int, earthingClip: int, cableClip: int)

  const EmptyBom: AntaiBom := AntaiBom(0, 0, 0, 0, 0, 0, 0, 0, 0, 0)

  /** Mid clamps of one row of n panels: two per gap between neighbours. */
  function SingleRowMid(n: int): int
  {
    if n >= 2 then 2 * (n - 1) else 0
  }

  /** Front (and as many rear) legs: one per panel, one more past four panels. */
  function SingleRowLegs(n: int): int
  {
    if n <= 4 then n else n + 1
  }

  /** Length of the row's rails: n modules and n - 1 gaps (a negative gap counts as 0). */
  function SingleRowLength(n: int, unitAlongRowMM: real, gapMM: real): real
  {
    n as real * unitAlongRowMM + IntMax(0, n - 1) as real * Max(0.0, gapMM)
  }

  /** bomAntaiForPanelsSingleRow: both rails cut by the optimizer with at least
      two pieces each, and the hardware for n = max(0, floor(N)) panels. */
  method BomAntaiForPanelsSingleRow(N: real, unitAlongRowMM: real, gapMM: real) returns (bom: AntaiBom)
    ensures var n := IntMax(0, Floor(N));
      (n == 0 ==> bom == EmptyBom)
      && (n >= 1 ==>
            bom.total4700 % 2 == 0 && bom.total2400 % 2 == 0
            && IsAntaiPick(SingleRowLength(n, unitAlongRowMM, gapMM), 2, bom.total4700 / 2, bom.total2400 / 2)
            && bom.totalSplices == 2 * IntMax(0, bom.total4700 / 2 + bom.total2400 / 2 - 1)
            && bom.endClamp == 4 && bom.midClamp == SingleRowMid(n)
            && bom.frontLeg == SingleRowLegs(n) && bom.rearLeg == bom.frontLeg
            && bom.groundingLug == (if n <= 4 then 1 else 2)
            && bom.earthingClip == bom.midClamp
            && bom.cableClip == (if n >= 6 then n else 0))
  {
    var totalPanels := IntMax(0, Floor(N));
    if totalPanels == 0 {
      return EmptyBom;
    }
    var rowLen := SingleRowLength(totalPanels, unitAlongRowMM, gapMM);
    var n4700, n2400 := PickRailsForLength(rowLen, 2);
    var piecesPerRail := n4700 + n2400;
    var total4700 := n4700 * 2;
    var total2400 := n2400 * 2;
    var totalSplices := IntMax(0, piecesPerRail - 1) * 2;
    var endClamp := 4;
    var midClamp := if totalPanels >= 2 then 2 * (totalPanels - 1) else 0;
    var legs := if totalPanels <= 4 then totalPanels else totalPanels + 1;
    var groundingLug := if totalPanels <= 4 then 1 else 2;
    var cableClip := if totalPanels >= 6 then totalPanels else 0;
    bom := AntaiBom(total4700, total2400, totalSplices, endClamp, midClamp, legs, legs,
                    groundingLug, midClamp, cableClip);
  }

  /** End and mid clamps together: two per panel edge along the row. */
  lemma ClampsPerEdge(n: int)
    requires n >= 1
    ensures 4 + SingleRowMid(n) == 2 * (n + 1)
  {
  }

  /** The single-row rules are the one-row case of the quote page's multi-row rules. */
  lemma SingleRowIsOneRowOfPage(n: nat, perRow: nat)
    requires 1 <= n <= perRow
    ensures Rails.Rows(n, perRow) == 1
    ensures Rails.MidTotal(n, perRow, 1) == SingleRowMid(n)
    ensures Rails.LegsTotal(n, perRow, 1) == SingleRowLegs(n)
  {
    var rows := Rails.Rows(n, perRow);
    assert rows == 1 by {
      if rows >= 2 {
        Rails.MulIntMonotone(2, rows, perRow);
      }
    }
    assert Rails.RowSize(n, perRow, 0) == n;
  }
}
