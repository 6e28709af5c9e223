/** The two sweeps that re-cost the production program: the break-even
    sweep scales every row's series per year by a factor (rounded to a whole
    number) and costs the scaled program on both machines; the labour-rate
    sensitivity sweep costs the unchanged program on both machines for each
    labour rate and records the saving of B over A. */
module Sweeps {
  import opened ProgramCosting

  /** Rounding to the nearest whole number, ties to the even neighbour (the
      rounding of numpy's `round`). */
  function RoundHalfEven(x: real): (k: int)
    ensures x - 0.5 <= k as real <= x + 0.5
    ensures (k as real - x == 0.5 || x - k as real == 0.5) ==> k % 2 == 0
  {
    var f := x.Floor;
    var frac := x - f as real;
    if frac < 0.5 then f
    else if frac > 0.5 then f + 1
    else if f % 2 == 0 then f
    else f + 1
  }

  /** Rounding never reverses the order of two numbers. */
  lemma RoundMonotone(x: real, y: real)
    requires x <= y
    ensures RoundHalfEven(x) <= RoundHalfEven(y)
  {
    if x < y {
      var kx, ky := RoundHalfEven(x), RoundHalfEven(y);
      assert (kx - ky) as real < 1.0;
    }
  }

  /** Whole numbers are left unchanged by rounding. */
  lemma RoundWhole(k: int)
    ensures RoundHalfEven(k as real) == k
  {
    var r := RoundHalfEven(k as real);
    assert -1 < r - k < 1;
  }

  /** The program with every row's series per year multiplied by `faktor`
      and rounded; nothing else changes. */
  function ScaleProgram(prog: Program, faktor: real): (q: Program)
    ensures q.columns == prog.columns && |q.rows| == |prog.rows|
    ensures forall i :: 0 <= i < |prog.rows| ==>
      q.rows[i] == prog.rows[i].(serienJahr := q.rows[i].serienJahr) &&
      Scaled(prog.rows[i].serienJahr, faktor) - 0.5 <= q.rows[i].serienJahr as real <= Scaled(prog.rows[i].serienJahr, faktor) + 0.5
  {
    Program(prog.columns, seq(|prog.rows|, i requires 0 <= i < |prog.rows| => ScaleRow(prog.rows[i], faktor)))
  }

  /** A row with its series per year scaled and rounded to the nearest
      whole number; every other cell unchanged. */
  function ScaleRow(row: SeriesRow, faktor: real): (r: SeriesRow)
    ensures r == row.(serienJahr := r.serienJahr)
    ensures Scaled(row.serienJahr, faktor) - 0.5 <= r.serienJahr as real <= Scaled(row.serienJahr, faktor) + 0.5
  {
    row.(serienJahr := RoundHalfEven(Scaled(row.serienJahr, faktor)))
  }

  /** A series count times a factor, before rounding. */
  function Scaled(serienJahr: int, faktor: real): real
  {
    serienJahr as real * faktor
  }

  /** The break-even sweep: for each factor, in order, the total cost of the
      scaled program on A and on B, and A's total units. */
  method BreakEvenSweep(prog: Program, faktoren: seq<real>,
                        mssFixA: real, mssVarA: real, mssFixB: real, mssVarB: real,
                        lohn: real, bedienA: real, bedienB: real)
    returns (kostenVerlaufA: seq<real>, kostenVerlaufB: seq<real>, stueckzahlen: seq<int>)
    ensures |kostenVerlaufA| == |kostenVerlaufB| == |stueckzahlen| == |faktoren|
    ensures forall i :: 0 <= i < |faktoren| ==>
      kostenVerlaufA[i] == ProgramCost(ScaleProgram(prog, faktoren[i]), mssFixA, mssVarA, lohn, bedienA).gesKosten &&
      kostenVerlaufB[i] == ProgramCost(ScaleProgram(prog, faktoren[i]), mssFixB, mssVarB, lohn, bedienB).gesKosten &&
      stueckzahlen[i] == ProgramCost(ScaleProgram(prog, faktoren[i]), mssFixA, mssVarA, lohn, bedienA).gesStueck
  {
    kostenVerlaufA, kostenVerlaufB, stueckzahlen := [], [], [];
    var j := 0;
    while j < |faktoren|
      invariant 0 <= j <= |faktoren|
      invariant |kostenVerlaufA| == |kostenVerlaufB| == |stueckzahlen| == j
      invariant forall i :: 0 <= i < j ==>
        kostenVerlaufA[i] == ProgramCost(ScaleProgram(prog, faktoren[i]), mssFixA, mssVarA, lohn, bedienA).gesKosten &&
        kostenVerlaufB[i] == ProgramCost(ScaleProgram(prog, faktoren[i]), mssFixB, mssVarB, lohn, bedienB).gesKosten &&
        stueckzahlen[i] == ProgramCost(ScaleProgram(prog, faktoren[i]), mssFixA, mssVarA, lohn, bedienA).gesStueck
    {
      var dfScaled := ScaleProgram(prog, faktoren[j]);
      var resTempA := KalkuliereProgrammDetail(dfScaled, mssFixA, mssVarA, lohn, bedienA);
      var resTempB := KalkuliereProgrammDetail(dfScaled, mssFixB, mssVarB, lohn, bedienB);
      kostenVerlaufA := kostenVerlaufA + [resTempA.gesKosten];
      kostenVerlaufB := kostenVerlaufB + [resTempB.gesKosten];
      stueckzahlen := stueckzahlen + [resTempA.gesStueck];
      j := j + 1;
    }
  }

  /** One sample of the labour-rate sweep: A's total cost minus B's, both at
      labour rate `lohn`. */
  function SavingAt(prog: Program, mssFixA: real, mssVarA: real, mssFixB: real, mssVarB: real,
                    lohn: real, bedienA: real, bedienB: real): (r: real)
    ensures r > 0.0 <==>
      ProgramCost(prog, mssFixB, mssVarB, lohn, bedienB).gesKosten < ProgramCost(prog, mssFixA, mssVarA, lohn, bedienA).gesKosten
    ensures r == 0.0 <==>
      ProgramCost(prog, mssFixB, mssVarB, lohn, bedienB).gesKosten == ProgramCost(prog, mssFixA, mssVarA, lohn, bedienA).gesKosten
  {
    ProgramCost(prog, mssFixA, mssVarA, lohn, bedienA).gesKosten -
    ProgramCost(prog, mssFixB, mssVarB, lohn, bedienB).gesKosten
  }

  /** The labour-rate sensitivity sweep: for each labour rate, in order, the
      saving of B over A on the unchanged program. */
  method LohnSensitivity(prog: Program, lohnRange: seq<real>,
                         mssFixA: real, mssVarA: real, mssFixB: real, mssVarB: real,
                         bedienA: real, bedienB: real)
    returns (ersparnisSens: seq<real>)
    ensures |ersparnisSens| == |lohnRange|
    ensures forall i :: 0 <= i < |lohnRange| ==>
      ersparnisSens[i] == SavingAt(prog, mssFixA, mssVarA, mssFixB, mssVarB, lohnRange[i], bedienA, bedienB)
  {
    ersparnisSens := [];
    var j := 0;
    while j < |lohnRange|
      invariant 0 <= j <= |lohnRange|
      invariant |ersparnisSens| == j
      invariant forall i :: 0 <= i < j ==>
        ersparnisSens[i] == SavingAt(prog, mssFixA, mssVarA, mssFixB, mssVarB, lohnRange[i], bedienA, bedienB)
    {
      var lohnTest := lohnRange[j];
      var rATemp := KalkuliereProgrammDetail(prog, mssFixA, mssVarA, lohnTest, bedienA);
      var rBTemp := KalkuliereProgrammDetail(prog, mssFixB, mssVarB, lohnTest, bedienB);
      ersparnisSens := ersparnisSens + [rATemp.gesKosten - rBTemp.gesKosten];
      j := j + 1;
    }
  }

  // ----- Properties of the break-even sweep -----

  /** Scaling by a larger non-negative factor gives every row at least as
      many series per year, and changes nothing else. */
  lemma ScaledRowsOrdered(prog: Program, f1: real, f2: real)
    requires 0.0 <= f1 <= f2
    requires forall i :: 0 <= i < |prog.rows| ==> NonNegativeRow(prog.rows[i])
    ensures var p, q := ScaleProgram(prog, f1), ScaleProgram(prog, f2);
      p.columns == q.columns && |p.rows| == |q.rows| &&
      forall i :: 0 <= i < |p.rows| ==>
        NonNegativeRow(p.rows[i]) && p.rows[i].serienJahr <= q.rows[i].serienJahr &&
        q.rows[i] == p.rows[i].(serienJahr := q.rows[i].serienJahr)
  {
    var p, q := ScaleProgram(prog, f1), ScaleProgram(prog, f2);
    forall i | 0 <= i < |p.rows|
      ensures NonNegativeRow(p.rows[i]) && p.rows[i].serienJahr <= q.rows[i].serienJahr
    {
      ScaleRowOrdered(prog.rows[i], f1, f2);
    }
  }

  lemma ScaleRowOrdered(row: SeriesRow, f1: real, f2: real)
    requires 0.0 <= f1 <= f2 && NonNegativeRow(row)
    ensures NonNegativeRow(ScaleRow(row, f1))
    ensures ScaleRow(row, f1).serienJahr <= ScaleRow(row, f2).serienJahr
  {
    assert 0.0 <= Scaled(row.serienJahr, f1) <= Scaled(row.serienJahr, f2) by {
      ScaledMonotone(row.serienJahr as real, f1, f2);
    }
    RoundMonotone(Scaled(row.serienJahr, f1), Scaled(row.serienJahr, f2));
  }

  lemma ScaledMonotone(s: real, f1: real, f2: real)
    requires s >= 0.0 && 0.0 <= f1 <= f2
    ensures 0.0 <= s * f1 <= s * f2
  {
  }

  /** A larger non-negative scale factor never gives a cheaper program: the
      break-even curves rise with the factor (given non-negative rows and
      hourly rates). */
  lemma BreakEvenCostMonotone(prog: Program, f1: real, f2: real, mssFix: real, mssVar: real, lohn: real, faktor: real)
    requires 0.0 <= f1 <= f2
    requires forall i :: 0 <= i < |prog.rows| ==> NonNegativeRow(prog.rows[i])
    requires mssFix + mssVar + lohn * faktor >= 0.0 && mssFix + mssVar + lohn >= 0.0
    ensures ProgramCost(ScaleProgram(prog, f1), mssFix, mssVar, lohn, faktor).gesKosten <=
            ProgramCost(ScaleProgram(prog, f2), mssFix, mssVar, lohn, faktor).gesKosten
  {
    ScaledRowsOrdered(prog, f1, f2);
    CostMonotoneInSeries(ScaleProgram(prog, f1), ScaleProgram(prog, f2), mssFix, mssVar, lohn, faktor);
  }

  /** Scaling by 1 leaves the program as it is, so the sample at factor 1 is
      the current program's cost. */
  lemma ScaleByOne(prog: Program)
    ensures ScaleProgram(prog, 1.0) == prog
  {
    var q := ScaleProgram(prog, 1.0);
    forall i | 0 <= i < |prog.rows| ensures q.rows[i] == prog.rows[i] {
      RoundWhole(prog.rows[i].serienJahr);
    }
    assert q.rows == prog.rows;
  }

  lemma {:induction false} SumStueckScaled(ds1: seq<SeriesDetail>, ds: seq<SeriesDetail>, k: int)
    requires |ds1| == |ds|
    requires forall i :: 0 <= i < |ds| ==> ds1[i].stueckJahr == k * ds[i].stueckJahr
    ensures SumStueck(ds1) == k * SumStueck(ds)
  {
    if ds != [] {
      var n := |ds| - 1;
      SumStueckScaled(ds1[..n], ds[..n], k);
      var a, x := SumStueck(ds[..n]), ds[n].stueckJahr;
      assert k * (a + x) == k * a + k * x;
    }
  }

  lemma ScaledUnits(prog: Program, k: nat, mssFix: real, mssVar: real, lohn: real, faktor: real)
    ensures var ds1 := Details(ScaleProgram(prog, k as real), mssFix, mssVar, lohn, faktor);
      var ds := Details(prog, mssFix, mssVar, lohn, faktor);
      |ds1| == |ds| && forall i :: 0 <= i < |ds| ==> ds1[i].stueckJahr == k * ds[i].stueckJahr
  {
    var ds1 := Details(ScaleProgram(prog, k as real), mssFix, mssVar, lohn, faktor);
    var ds := Details(prog, mssFix, mssVar, lohn, faktor);
    forall i | 0 <= i < |ds| ensures ds1[i].stueckJahr == k * ds[i].stueckJahr {
      var row := prog.rows[i];
      ScaleRowWhole(row, k);
      MulRearrange(row.serienJahr, k, row.stueckSerie);
    }
  }

  lemma ScaleRowWhole(row: SeriesRow, k: int)
    ensures ScaleRow(row, k as real).serienJahr == row.serienJahr * k
  {
    assert Scaled(row.serienJahr, k as real) == (row.serienJahr * k) as real;
    RoundWhole(row.serienJahr * k);
  }

  lemma MulRearrange(a: int, b: int, c: int)
    ensures (a * b) * c == b * (a * c)
  {}

  /** Scaling by a whole factor k multiplies the program's total units by
      exactly k: no rounding happens (the sample at factor 2 makes twice the
      units of the current program). */
  lemma ScaleByWholeFactor(prog: Program, k: nat, mssFix: real, mssVar: real, lohn: real, faktor: real)
    ensures ProgramCost(ScaleProgram(prog, k as real), mssFix, mssVar, lohn, faktor).gesStueck ==
            k * ProgramCost(prog, mssFix, mssVar, lohn, faktor).gesStueck
  {
    ScaledUnits(prog, k, mssFix, mssVar, lohn, faktor);
    SumStueckScaled(Details(ScaleProgram(prog, k as real), mssFix, mssVar, lohn, faktor),
                    Details(prog, mssFix, mssVar, lohn, faktor), k);
  }

  // ----- Properties of the labour-rate sweep -----

  /** The saving of B over A is affine in the labour rate: on top of the
      saving at labour rate 0, A's labour hours cost lohn each and so do B's
      (the labour hours do not depend on any rate, HoursIndependentOfRates,
      and differ by LabourHoursGap). */
  lemma SavingAffineInLabourRate(prog: Program, mssFixA: real, mssVarA: real, mssFixB: real, mssVarB: real,
                                 lohn: real, bedienA: real, bedienB: real)
    ensures SavingAt(prog, mssFixA, mssVarA, mssFixB, mssVarB, lohn, bedienA, bedienB) ==
            SavingAt(prog, mssFixA, mssVarA, mssFixB, mssVarB, 0.0, bedienA, bedienB) +
            (lohn * LabourHours(Details(prog, mssFixA, mssVarA, 0.0, bedienA), bedienA) -
             lohn * LabourHours(Details(prog, mssFixB, mssVarB, 0.0, bedienB), bedienB))
  {
    LabourRateAffine(prog, mssFixA, mssVarA, lohn, bedienA);
    LabourRateAffine(prog, mssFixB, mssVarB, lohn, bedienB);
  }

  /** Costed on the same program, the two machines' labour hours differ only
      in the processing hours, weighted by the difference of the operator
      factors: the setup hours count in full on both. */
  lemma LabourHoursGap(prog: Program, mssFixA: real, mssVarA: real, mssFixB: real, mssVarB: real,
                       bedienA: real, bedienB: real)
    ensures LabourHours(Details(prog, mssFixA, mssVarA, 0.0, bedienA), bedienA) -
            LabourHours(Details(prog, mssFixB, mssVarB, 0.0, bedienB), bedienB) ==
            (bedienA - bedienB) * SumBearbH(Details(prog, mssFixA, mssVarA, 0.0, bedienA))
  {
    var dsA := Details(prog, mssFixA, mssVarA, 0.0, bedienA);
    var dsB := Details(prog, mssFixB, mssVarB, 0.0, bedienB);
    LabourHoursSplit(dsA, bedienA);
    LabourHoursSplit(dsB, bedienB);
    HoursIndependentOfRates(prog, mssFixA, mssVarA, 0.0, bedienA, mssFixB, mssVarB, 0.0, bedienB);
    var b := SumBearbH(dsA);
    assert bedienA * b - bedienB * b == (bedienA - bedienB) * b;
  }

  /** When A's operator factor is at least B's (on the page A is always 1.0
      and B at most 1.0), a higher labour rate never lowers the saving of B
      over A: the sensitivity curve rises. */
  lemma SavingMonotoneInLabourRate(prog: Program, mssFixA: real, mssVarA: real, mssFixB: real, mssVarB: real,
                                   lohn1: real, lohn2: real, bedienA: real, bedienB: real)
    requires lohn1 <= lohn2 && bedienB <= bedienA
    requires forall i :: 0 <= i < |prog.rows| ==> NonNegativeRow(prog.rows[i])
    ensures SavingAt(prog, mssFixA, mssVarA, mssFixB, mssVarB, lohn1, bedienA, bedienB) <=
            SavingAt(prog, mssFixA, mssVarA, mssFixB, mssVarB, lohn2, bedienA, bedienB)
  {
    DetailSavingMonotone(prog, mssFixA, mssVarA, mssFixB, mssVarB, lohn1, lohn2, bedienA, bedienB);
  }

  lemma DetailSavingMonotone(prog: Program, mssFixA: real, mssVarA: real, mssFixB: real, mssVarB: real,
                             lohn1: real, lohn2: real, bedienA: real, bedienB: real)
    requires lohn1 <= lohn2 && bedienB <= bedienA
    requires forall i :: 0 <= i < |prog.rows| ==> NonNegativeRow(prog.rows[i])
    ensures SumKosten(Details(prog, mssFixA, mssVarA, lohn1, bedienA)) - SumKosten(Details(prog, mssFixB, mssVarB, lohn1, bedienB)) <=
            SumKosten(Details(prog, mssFixA, mssVarA, lohn2, bedienA)) - SumKosten(Details(prog, mssFixB, mssVarB, lohn2, bedienB))
  {
    DetailsShifted(prog, mssFixA, mssVarA, lohn1, bedienA);
    DetailsShifted(prog, mssFixA, mssVarA, lohn2, bedienA);
    DetailsShifted(prog, mssFixB, mssVarB, lohn1, bedienB);
    DetailsShifted(prog, mssFixB, mssVarB, lohn2, bedienB);
    DetailHoursAgree(prog, mssFixA, mssVarA, 0.0, bedienA, mssFixB, mssVarB, 0.0, bedienB);
    DetailProcessingNonNegative(prog, mssFixA, mssVarA, 0.0, bedienA);
    SeqSavingRises(Details(prog, mssFixA, mssVarA, lohn1, bedienA), Details(prog, mssFixA, mssVarA, lohn2, bedienA),
                   Details(prog, mssFixA, mssVarA, 0.0, bedienA),
                   Details(prog, mssFixB, mssVarB, lohn1, bedienB), Details(prog, mssFixB, mssVarB, lohn2, bedienB),
                   Details(prog, mssFixB, mssVarB, 0.0, bedienB), lohn1, lohn2, bedienA, bedienB);
  }

  lemma SeqSavingRises(a1: seq<SeriesDetail>, a2: seq<SeriesDetail>, a0: seq<SeriesDetail>,
                       b1: seq<SeriesDetail>, b2: seq<SeriesDetail>, b0: seq<SeriesDetail>,
                       l1: real, l2: real, fa: real, fb: real)
    requires |a1| == |a2| == |a0| == |b1| == |b2| == |b0|
    requires forall i :: 0 <= i < |a0| ==> LabourShifted(a1[i], a0[i], l1, fa) && LabourShifted(a2[i], a0[i], l2, fa)
    requires forall i :: 0 <= i < |b0| ==> LabourShifted(b1[i], b0[i], l1, fb) && LabourShifted(b2[i], b0[i], l2, fb)
    requires forall i :: 0 <= i < |a0| ==> a0[i].tBearbH == b0[i].tBearbH && a0[i].tRuestH == b0[i].tRuestH
    requires forall i :: 0 <= i < |a0| ==> a0[i].tBearbH >= 0.0
    requires l1 <= l2 && fb <= fa
    ensures SumKosten(a1) - SumKosten(b1) <= SumKosten(a2) - SumKosten(b2)
  {
    forall i | 0 <= i < |a1| ensures a1[i].kostenGes - b1[i].kostenGes <= a2[i].kostenGes - b2[i].kostenGes {
      DetailSavingRises(a1[i], a2[i], a0[i], b1[i], b2[i], b0[i], l1, l2, fa, fb);
    }
    SumSavingMonotone(a1, b1, a2, b2);
  }

  lemma DetailSavingRises(a1: SeriesDetail, a2: SeriesDetail, a0: SeriesDetail,
                          b1: SeriesDetail, b2: SeriesDetail, b0: SeriesDetail,
                          l1: real, l2: real, fa: real, fb: real)
    requires LabourShifted(a1, a0, l1, fa) && LabourShifted(a2, a0, l2, fa)
    requires LabourShifted(b1, b0, l1, fb) && LabourShifted(b2, b0, l2, fb)
    requires a0.tBearbH == b0.tBearbH >= 0.0 && a0.tRuestH == b0.tRuestH
    requires l1 <= l2 && fb <= fa
    ensures a1.kostenGes - b1.kostenGes <= a2.kostenGes - b2.kostenGes
  {
    var x, y := a0.tBearbH, a0.tRuestH;
    assert a1.kostenGes - b1.kostenGes == (a0.kostenGes - b0.kostenGes) + l1 * ((fa - fb) * x);
    assert a2.kostenGes - b2.kostenGes == (a0.kostenGes - b0.kostenGes) + l2 * ((fa - fb) * x);
    MulMonotone(0.0, fa - fb, x);
    MulMonotone(l1, l2, (fa - fb) * x);
  }

  lemma {:induction false} SumSavingMonotone(a1: seq<SeriesDetail>, b1: seq<SeriesDetail>,
                                             a2: seq<SeriesDetail>, b2: seq<SeriesDetail>)
    requires |a1| == |b1| == |a2| == |b2|
    requires forall i :: 0 <= i < |a1| ==> a1[i].kostenGes - b1[i].kostenGes <= a2[i].kostenGes - b2[i].kostenGes
    ensures SumKosten(a1) - SumKosten(b1) <= SumKosten(a2) - SumKosten(b2)
  {
    if a1 != [] {
      var n := |a1| - 1;
      SumSavingMonotone(a1[..n], b1[..n], a2[..n], b2[..n]);
    }
  }
}
