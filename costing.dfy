/** Program costing: the production program is a table of part series; for
    one machine's hourly rates, every row is costed (processing at the
    machine rate plus labour scaled by the operator factor, setup at the
    machine rate plus full labour) and the totals are accumulated. */
module ProgramCosting {

  /** The name of the column holding machine A's processing time. The
      costing picks the time columns by whether this column exists. */
  const SpalteBearbA: string := "Bearbzeit (min/Stk) A"

  /** One row of the production program ("Serie", "Serien/Jahr",
      "Stück/Serie", and the processing and setup minutes of both machines). */
  datatype SeriesRow = SeriesRow(
    serie: string,
    serienJahr: int,
    stueckSerie: int,
    bearbA: real,
    bearbB: real,
    ruestA: real,
    ruestB: real)

  /** The program table: its column names and its rows, in order. */
  datatype Program = Program(columns: set<string>, rows: seq<SeriesRow>)

  /** Whose time columns a row is costed with. */
  datatype Machine = A | B

  /** The per-row detail record, unrounded. */
  datatype SeriesDetail = SeriesDetail(
    serie: string,
    machine: Machine,
    stueckJahr: int,
    tBearbH: real,
    tRuestH: real,
    kostenBearb: real,
    kostenRuest: real,
    kostenGes: real)
  {
    /** The record's cost per unit: the row's total cost spread over its
        units per year, and 0 when the row yields no units. */
    function KostenStueck(): (c: real)
      ensures stueckJahr <= 0 ==> c == 0.0
      ensures stueckJahr > 0 ==> c * (stueckJahr as real) == kostenGes
    {
      if stueckJahr > 0 then kostenGes / stueckJahr as real else 0.0
    }
  }

  /** What the costing returns: the details, one per row, and the totals. */
  datatype ProgramResult = ProgramResult(
    details: seq<SeriesDetail>,
    gesKosten: real,
    gesStunden: real,
    gesStueck: int)

  /** A's time columns are used whenever A's processing-time column exists. */
  function TimeColumns(columns: set<string>): (m: Machine)
    ensures m == A <==> SpalteBearbA in columns
  {
    if SpalteBearbA in columns then A else B
  }

  function BearbMinutes(row: SeriesRow, m: Machine): real
  {
    if m == A then row.bearbA else row.bearbB
  }

  function RuestMinutes(row: SeriesRow, m: Machine): real
  {
    if m == A then row.ruestA else row.ruestB
  }

  /** Hours taken by `count` repetitions of `minutes` minutes each. */
  function Hours(count: int, minutes: real): real
  {
    (count as real * minutes) / 60.0
  }

  /** The cost of `hours` hours at an hourly rate. */
  function Charge(hours: real, rate: real): real
  {
    hours * rate
  }

  /** The costing of one row with the given time columns: units per year,
      processing and setup hours from the minutes, processing charged at
      mssFix + mssVar + lohn * faktor, setup at mssFix + mssVar + lohn
      whatever faktor is. */
  function CostRow(row: SeriesRow, m: Machine, mssFix: real, mssVar: real, lohn: real, faktor: real): (d: SeriesDetail)
    ensures d.serie == row.serie && d.machine == m
    ensures d.stueckJahr == row.serienJahr * row.stueckSerie
    ensures 60.0 * d.tBearbH == (d.stueckJahr as real) * BearbMinutes(row, m)
    ensures 60.0 * d.tRuestH == (row.serienJahr as real) * RuestMinutes(row, m)
    ensures d.kostenBearb == d.tBearbH * (mssFix + mssVar + lohn * faktor)
    ensures d.kostenRuest == d.tRuestH * (mssFix + mssVar + lohn)
    ensures d.kostenGes == d.kostenBearb + d.kostenRuest
  {
    var stueckJahr := row.serienJahr * row.stueckSerie;
    var tBearbH := Hours(stueckJahr, BearbMinutes(row, m));
    var tRuestH := Hours(row.serienJahr, RuestMinutes(row, m));
    var kostenBearb := Charge(tBearbH, mssFix + mssVar + lohn * faktor);
    var kostenRuest := Charge(tRuestH, mssFix + mssVar + lohn);
    var kostenGes := kostenBearb + kostenRuest;
    SeriesDetail(row.serie, m, stueckJahr, tBearbH, tRuestH, kostenBearb, kostenRuest, kostenGes)
  }

  /** The detail records of a program, one per row in row order. */
  function Details(prog: Program, mssFix: real, mssVar: real, lohn: real, faktor: real): seq<SeriesDetail>
  {
    seq(|prog.rows|, i requires 0 <= i < |prog.rows| =>
      CostRow(prog.rows[i], TimeColumns(prog.columns), mssFix, mssVar, lohn, faktor))
  }

  /** Sums over detail records, taken from the front as the loop adds them. */
  function SumKosten(ds: seq<SeriesDetail>): real
  {
    if ds == [] then 0.0 else SumKosten(ds[..|ds| - 1]) + ds[|ds| - 1].kostenGes
  }

  function SumStunden(ds: seq<SeriesDetail>): real
  {
    if ds == [] then 0.0 else SumStunden(ds[..|ds| - 1]) + (ds[|ds| - 1].tBearbH + ds[|ds| - 1].tRuestH)
  }

  function SumStueck(ds: seq<SeriesDetail>): int
  {
    if ds == [] then 0 else SumStueck(ds[..|ds| - 1]) + ds[|ds| - 1].stueckJahr
  }

  function SumBearbH(ds: seq<SeriesDetail>): real
  {
    if ds == [] then 0.0 else SumBearbH(ds[..|ds| - 1]) + ds[|ds| - 1].tBearbH
  }

  function SumRuestH(ds: seq<SeriesDetail>): real
  {
    if ds == [] then 0.0 else SumRuestH(ds[..|ds| - 1]) + ds[|ds| - 1].tRuestH
  }

  /** The specification of the costing: the detail records and their sums. */
  function ProgramCost(prog: Program, mssFix: real, mssVar: real, lohn: real, faktor: real): (r: ProgramResult)
    ensures |r.details| == |prog.rows|
    ensures forall i :: 0 <= i < |prog.rows| ==>
      r.details[i] == CostRow(prog.rows[i], TimeColumns(prog.columns), mssFix, mssVar, lohn, faktor)
    ensures r.gesKosten == SumKosten(r.details) && r.gesStunden == SumStunden(r.details)
    ensures r.gesStueck == SumStueck(r.details)
  {
    var ds := Details(prog, mssFix, mssVar, lohn, faktor);
    ProgramResult(ds, SumKosten(ds), SumStunden(ds), SumStueck(ds))
  }

  /** The costing loop: walks the rows in order, picks the time columns by
      whether A's processing-time column exists, costs the row, appends its
      detail record and adds it to the three totals, which start at 0. */
  method KalkuliereProgrammDetail(prog: Program, mssFix: real, mssVar: real, lohn: real, faktor: real)
    returns (res: ProgramResult)
    ensures res == ProgramCost(prog, mssFix, mssVar, lohn, faktor)
  {
    ghost var spec := Details(prog, mssFix, mssVar, lohn, faktor);
    var details: seq<SeriesDetail> := [];
    var gesKosten := 0.0;
    var gesStunden := 0.0;
    var gesStueck := 0;
    var i := 0;
    while i < |prog.rows|
      invariant 0 <= i <= |prog.rows|
      invariant details == spec[..i]
      invariant gesKosten == SumKosten(details)
      invariant gesStunden == SumStunden(details)
      invariant gesStueck == SumStueck(details)
    {
      var row := prog.rows[i];
      var machine := if SpalteBearbA in prog.columns then A else B;
      var d := CostRow(row, machine, mssFix, mssVar, lohn, faktor);
      assert d == spec[i];
      assert (details + [d])[..i] == details;
      details := details + [d];
      gesKosten := gesKosten + d.kostenGes;
      gesStunden := gesStunden + (d.tBearbH + d.tRuestH);
      gesStueck := gesStueck + d.stueckJahr;
      i := i + 1;
    }
    assert spec[..|prog.rows|] == spec;
    res := ProgramResult(details, gesKosten, gesStunden, gesStueck);
  }

  // ----- Properties of the costing -----

  /** An empty program has no detail records and all three totals are 0. */
  lemma EmptyProgram(columns: set<string>, mssFix: real, mssVar: real, lohn: real, faktor: real)
    ensures var r := ProgramCost(Program(columns, []), mssFix, mssVar, lohn, faktor);
      r.details == [] && r.gesKosten == 0.0 && r.gesStunden == 0.0 && r.gesStueck == 0
  {}

  /** The costing has exactly one detail record per row, in the rows' order,
      each naming its row and costed with the selected time columns. */
  lemma DetailsOnePerRow(prog: Program, mssFix: real, mssVar: real, lohn: real, faktor: real)
    ensures var r := ProgramCost(prog, mssFix, mssVar, lohn, faktor);
      |r.details| == |prog.rows| &&
      forall i :: 0 <= i < |prog.rows| ==>
        r.details[i].serie == prog.rows[i].serie &&
        r.details[i].machine == TimeColumns(prog.columns) &&
        r.details[i].stueckJahr == prog.rows[i].serienJahr * prog.rows[i].stueckSerie
  {}

  /** Every sum over a concatenation is the sum of the sums of its parts. */
  lemma {:induction false} SumsAppend(a: seq<SeriesDetail>, b: seq<SeriesDetail>)
    ensures SumKosten(a + b) == SumKosten(a) + SumKosten(b)
    ensures SumStunden(a + b) == SumStunden(a) + SumStunden(b)
    ensures SumStueck(a + b) == SumStueck(a) + SumStueck(b)
    ensures SumBearbH(a + b) == SumBearbH(a) + SumBearbH(b)
    ensures SumRuestH(a + b) == SumRuestH(a) + SumRuestH(b)
  {
    if b == [] {
      assert a + b == a;
    } else {
      var b' := b[..|b| - 1];
      SumsAppend(a, b');
      assert (a + b)[..|a + b| - 1] == a + b';
      assert (a + b)[|a + b| - 1] == b[|b| - 1];
    }
  }

  /** Costing a program made of two parts yields the details of the first
      part followed by those of the second, and totals that add up: the
      totals do not depend on how the rows are grouped. */
  lemma ProgramCostAppend(columns: set<string>, rows1: seq<SeriesRow>, rows2: seq<SeriesRow>,
                          mssFix: real, mssVar: real, lohn: real, faktor: real)
    ensures var whole := ProgramCost(Program(columns, rows1 + rows2), mssFix, mssVar, lohn, faktor);
      var r1 := ProgramCost(Program(columns, rows1), mssFix, mssVar, lohn, faktor);
      var r2 := ProgramCost(Program(columns, rows2), mssFix, mssVar, lohn, faktor);
      whole.details == r1.details + r2.details &&
      whole.gesKosten == r1.gesKosten + r2.gesKosten &&
      whole.gesStunden == r1.gesStunden + r2.gesStunden &&
      whole.gesStueck == r1.gesStueck + r2.gesStueck
  {
    DetailsAppend(columns, rows1, rows2, mssFix, mssVar, lohn, faktor);
    SumsAppend(Details(Program(columns, rows1), mssFix, mssVar, lohn, faktor),
               Details(Program(columns, rows2), mssFix, mssVar, lohn, faktor));
  }

  lemma DetailsAppend(columns: set<string>, rows1: seq<SeriesRow>, rows2: seq<SeriesRow>,
                      mssFix: real, mssVar: real, lohn: real, faktor: real)
    ensures Details(Program(columns, rows1 + rows2), mssFix, mssVar, lohn, faktor) ==
      Details(Program(columns, rows1), mssFix, mssVar, lohn, faktor) + Details(Program(columns, rows2), mssFix, mssVar, lohn, faktor)
  {
    var d := Details(Program(columns, rows1 + rows2), mssFix, mssVar, lohn, faktor);
    var d1 := Details(Program(columns, rows1), mssFix, mssVar, lohn, faktor);
    var d2 := Details(Program(columns, rows2), mssFix, mssVar, lohn, faktor);
    assert |d| == |d1 + d2|;
    forall i | 0 <= i < |d| ensures d[i] == (d1 + d2)[i] {
      if i < |rows1| {
        assert (rows1 + rows2)[i] == rows1[i];
      } else {
        assert (rows1 + rows2)[i] == rows2[i - |rows1|];
      }
    }
  }

  /** Two programs with the same columns whose rows agree on name, counts and
      the time columns the costing picks are costed identically: the other
      machine's time columns never matter. With A's processing-time column
      present, B's times are ignored for every row. */
  lemma TimeColumnsSelected(p: Program, q: Program, mssFix: real, mssVar: real, lohn: real, faktor: real)
    requires p.columns == q.columns && |p.rows| == |q.rows|
    requires forall i :: 0 <= i < |p.rows| ==>
      var m := TimeColumns(p.columns);
      p.rows[i].serie == q.rows[i].serie && p.rows[i].serienJahr == q.rows[i].serienJahr &&
      p.rows[i].stueckSerie == q.rows[i].stueckSerie &&
      BearbMinutes(p.rows[i], m) == BearbMinutes(q.rows[i], m) &&
      RuestMinutes(p.rows[i], m) == RuestMinutes(q.rows[i], m)
    ensures ProgramCost(p, mssFix, mssVar, lohn, faktor) == ProgramCost(q, mssFix, mssVar, lohn, faktor)
    ensures forall d :: d in ProgramCost(p, mssFix, mssVar, lohn, faktor).details ==>
      d.machine == (if SpalteBearbA in p.columns then A else B)
  {
    var dp := Details(p, mssFix, mssVar, lohn, faktor);
    var dq := Details(q, mssFix, mssVar, lohn, faktor);
    forall i | 0 <= i < |dp| ensures dp[i] == dq[i] {
      var m := TimeColumns(p.columns);
      var rp, rq := p.rows[i], q.rows[i];
      assert rp.serienJahr * rp.stueckSerie == rq.serienJahr * rq.stueckSerie;
    }
    assert dp == dq;
  }

  /** Sums of fields that agree element by element agree. */
  lemma {:induction false} HourSumsAgree(ds1: seq<SeriesDetail>, ds2: seq<SeriesDetail>)
    requires |ds1| == |ds2|
    requires forall i :: 0 <= i < |ds1| ==>
      ds1[i].tBearbH == ds2[i].tBearbH && ds1[i].tRuestH == ds2[i].tRuestH && ds1[i].stueckJahr == ds2[i].stueckJahr
    ensures SumBearbH(ds1) == SumBearbH(ds2) && SumRuestH(ds1) == SumRuestH(ds2)
    ensures SumStunden(ds1) == SumStunden(ds2) && SumStueck(ds1) == SumStueck(ds2)
  {
    if ds1 != [] {
      HourSumsAgree(ds1[..|ds1| - 1], ds2[..|ds2| - 1]);
    }
  }

  /** Hours, units and their split into processing and setup depend on the
      program alone, not on the hourly rates, labour rate or operator factor. */
  lemma HoursIndependentOfRates(prog: Program, mssFix1: real, mssVar1: real, lohn1: real, faktor1: real,
                                mssFix2: real, mssVar2: real, lohn2: real, faktor2: real)
    ensures var d1 := Details(prog, mssFix1, mssVar1, lohn1, faktor1);
      var d2 := Details(prog, mssFix2, mssVar2, lohn2, faktor2);
      SumBearbH(d1) == SumBearbH(d2) && SumRuestH(d1) == SumRuestH(d2) &&
      SumStunden(d1) == SumStunden(d2) && SumStueck(d1) == SumStueck(d2)
  {
    DetailHoursAgree(prog, mssFix1, mssVar1, lohn1, faktor1, mssFix2, mssVar2, lohn2, faktor2);
    HourSumsAgree(Details(prog, mssFix1, mssVar1, lohn1, faktor1), Details(prog, mssFix2, mssVar2, lohn2, faktor2));
  }

  /** Row by row, hours and units do not depend on the rates. */
  lemma DetailHoursAgree(prog: Program, mssFix1: real, mssVar1: real, lohn1: real, faktor1: real,
                         mssFix2: real, mssVar2: real, lohn2: real, faktor2: real)
    ensures var d1 := Details(prog, mssFix1, mssVar1, lohn1, faktor1);
      var d2 := Details(prog, mssFix2, mssVar2, lohn2, faktor2);
      |d1| == |d2| &&
      forall i :: 0 <= i < |d1| ==>
        d1[i].tBearbH == d2[i].tBearbH && d1[i].tRuestH == d2[i].tRuestH && d1[i].stueckJahr == d2[i].stueckJahr
  {}

  /** The labour hours of detail records: processing hours weighted by the
      operator factor plus setup hours. */
  function LabourHours(ds: seq<SeriesDetail>, faktor: real): real
  {
    if ds == [] then 0.0 else LabourHours(ds[..|ds| - 1], faktor) + (faktor * ds[|ds| - 1].tBearbH + ds[|ds| - 1].tRuestH)
  }

  lemma {:induction false} LabourHoursSplit(ds: seq<SeriesDetail>, faktor: real)
    ensures LabourHours(ds, faktor) == faktor * SumBearbH(ds) + SumRuestH(ds)
  {
    if ds != [] {
      LabourHoursSplit(ds[..|ds| - 1], faktor);
    }
  }

  /** `d` is the record `d0` with the labour rate raised by `lohn`: the same
      hours, and `lohn` more per labour hour. */
  predicate LabourShifted(d: SeriesDetail, d0: SeriesDetail, lohn: real, faktor: real)
  {
    d.kostenGes == d0.kostenGes + lohn * (faktor * d0.tBearbH + d0.tRuestH)
  }

  lemma {:induction false} SumKostenShift(ds: seq<SeriesDetail>, ds0: seq<SeriesDetail>, lohn: real, faktor: real)
    requires |ds| == |ds0|
    requires forall i :: 0 <= i < |ds| ==> LabourShifted(ds[i], ds0[i], lohn, faktor)
    ensures SumKosten(ds) == SumKosten(ds0) + lohn * LabourHours(ds0, faktor)
  {
    if ds != [] {
      var n := |ds| - 1;
      assert forall i :: 0 <= i < n ==> ds[..n][i] == ds[i] && ds0[..n][i] == ds0[i];
      SumKostenShift(ds[..n], ds0[..n], lohn, faktor);
      assert LabourShifted(ds[n], ds0[n], lohn, faktor);
      var a, w := LabourHours(ds0[..n], faktor), faktor * ds0[n].tBearbH + ds0[n].tRuestH;
      assert LabourHours(ds0, faktor) == a + w;
      assert lohn * (a + w) == lohn * a + lohn * w;
    }
  }

  lemma RowLabourShift(row: SeriesRow, m: Machine, mssFix: real, mssVar: real, lohn: real, faktor: real)
    ensures LabourShifted(CostRow(row, m, mssFix, mssVar, lohn, faktor), CostRow(row, m, mssFix, mssVar, 0.0, faktor), lohn, faktor)
  {
    var d := CostRow(row, m, mssFix, mssVar, lohn, faktor);
    var d0 := CostRow(row, m, mssFix, mssVar, 0.0, faktor);
    var x, y := d.tBearbH, d.tRuestH;
    assert d0.tBearbH == x && d0.tRuestH == y;
    assert x * (mssFix + mssVar + lohn * faktor) + y * (mssFix + mssVar + lohn) ==
           x * (mssFix + mssVar + 0.0 * faktor) + y * (mssFix + mssVar + 0.0) + lohn * (faktor * x + y);
  }

  lemma DetailsLabourShift(prog: Program, mssFix: real, mssVar: real, lohn: real, faktor: real)
    ensures var ds := Details(prog, mssFix, mssVar, lohn, faktor);
      var ds0 := Details(prog, mssFix, mssVar, 0.0, faktor);
      SumKosten(ds) == SumKosten(ds0) + lohn * LabourHours(ds0, faktor)
  {
    DetailsShifted(prog, mssFix, mssVar, lohn, faktor);
    SumKostenShift(Details(prog, mssFix, mssVar, lohn, faktor), Details(prog, mssFix, mssVar, 0.0, faktor), lohn, faktor);
  }

  /** Row by row, the costing at labour rate `lohn` is the costing at labour
      rate 0 shifted by lohn per labour hour. */
  lemma DetailsShifted(prog: Program, mssFix: real, mssVar: real, lohn: real, faktor: real)
    ensures var ds := Details(prog, mssFix, mssVar, lohn, faktor);
      var ds0 := Details(prog, mssFix, mssVar, 0.0, faktor);
      |ds| == |ds0| && forall i :: 0 <= i < |ds| ==> LabourShifted(ds[i], ds0[i], lohn, faktor)
  {
    var ds := Details(prog, mssFix, mssVar, lohn, faktor);
    var ds0 := Details(prog, mssFix, mssVar, 0.0, faktor);
    forall i | 0 <= i < |ds| ensures LabourShifted(ds[i], ds0[i], lohn, faktor) {
      RowLabourShift(prog.rows[i], TimeColumns(prog.columns), mssFix, mssVar, lohn, faktor);
    }
  }

  /** The labour rate enters the program cost linearly: on top of the cost at
      labour rate 0, every processing hour is charged lohn * faktor and every
      setup hour the full lohn (LabourHoursSplit). */
  lemma LabourRateAffine(prog: Program, mssFix: real, mssVar: real, lohn: real, faktor: real)
    ensures ProgramCost(prog, mssFix, mssVar, lohn, faktor).gesKosten ==
      ProgramCost(prog, mssFix, mssVar, 0.0, faktor).gesKosten + lohn * LabourHours(Details(prog, mssFix, mssVar, 0.0, faktor), faktor)
  {
    DetailsLabourShift(prog, mssFix, mssVar, lohn, faktor);
  }

  /** Counts and minutes of a row are non-negative (the input table asks for
      counts of at least 1 and minutes of at least 0; scaled counts in the
      break-even sweep may be 0). */
  predicate NonNegativeRow(row: SeriesRow)
  {
    row.serienJahr >= 0 && row.stueckSerie >= 0 &&
    row.bearbA >= 0.0 && row.bearbB >= 0.0 && row.ruestA >= 0.0 && row.ruestB >= 0.0
  }

  lemma MulMonotone(a: real, b: real, c: real)
    requires a <= b && c >= 0.0
    ensures a * c <= b * c
  {}

  lemma IntMulMonotone(a: int, b: int, c: int)
    requires a <= b && c >= 0
    ensures a * c <= b * c
  {}

  /** More series per year never make a row cheaper, given non-negative
      units, minutes and hourly rates. */
  lemma RowCostMonotone(row: SeriesRow, s: int, m: Machine, mssFix: real, mssVar: real, lohn: real, faktor: real)
    requires NonNegativeRow(row) && row.serienJahr <= s
    requires mssFix + mssVar + lohn * faktor >= 0.0 && mssFix + mssVar + lohn >= 0.0
    ensures CostRow(row, m, mssFix, mssVar, lohn, faktor).kostenGes <=
            CostRow(row.(serienJahr := s), m, mssFix, mssVar, lohn, faktor).kostenGes
  {
    var d1 := CostRow(row, m, mssFix, mssVar, lohn, faktor);
    var d2 := CostRow(row.(serienJahr := s), m, mssFix, mssVar, lohn, faktor);
    var a, b := mssFix + mssVar + lohn * faktor, mssFix + mssVar + lohn;
    RowHoursMonotone(row, s, m, mssFix, mssVar, lohn, faktor);
    WeightedSumMonotone(d1.tBearbH, d2.tBearbH, d1.tRuestH, d2.tRuestH, a, b);
  }

  lemma RowHoursMonotone(row: SeriesRow, s: int, m: Machine, mssFix: real, mssVar: real, lohn: real, faktor: real)
    requires NonNegativeRow(row) && row.serienJahr <= s
    ensures CostRow(row, m, mssFix, mssVar, lohn, faktor).tBearbH <=
            CostRow(row.(serienJahr := s), m, mssFix, mssVar, lohn, faktor).tBearbH
    ensures CostRow(row, m, mssFix, mssVar, lohn, faktor).tRuestH <=
            CostRow(row.(serienJahr := s), m, mssFix, mssVar, lohn, faktor).tRuestH
  {
    var row2 := row.(serienJahr := s);
    var bm, rm := BearbMinutes(row, m), RuestMinutes(row, m);
    assert BearbMinutes(row2, m) == bm && RuestMinutes(row2, m) == rm;
    IntMulMonotone(row.serienJahr, s, row.stueckSerie);
    HoursMonotone(row.serienJahr * row.stueckSerie, s * row.stueckSerie, bm);
    HoursMonotone(row.serienJahr, s, rm);
  }

  lemma HoursMonotone(c1: int, c2: int, minutes: real)
    requires c1 <= c2 && minutes >= 0.0
    ensures Hours(c1, minutes) <= Hours(c2, minutes)
  {
    MulMonotone(c1 as real, c2 as real, minutes);
  }

  lemma WeightedSumMonotone(x1: real, x2: real, y1: real, y2: real, a: real, b: real)
    requires x1 <= x2 && y1 <= y2 && a >= 0.0 && b >= 0.0
    ensures Charge(x1, a) + Charge(y1, b) <= Charge(x2, a) + Charge(y2, b)
  {
    MulMonotone(x1, x2, a);
    MulMonotone(y1, y2, b);
    assert x1 * a + y1 * b <= x2 * a + y2 * b;
  }

  lemma {:induction false} SumKostenMonotone(ds1: seq<SeriesDetail>, ds2: seq<SeriesDetail>)
    requires |ds1| == |ds2|
    requires forall i :: 0 <= i < |ds1| ==> ds1[i].kostenGes <= ds2[i].kostenGes
    ensures SumKosten(ds1) <= SumKosten(ds2)
  {
    if ds1 != [] {
      SumKostenMonotone(ds1[..|ds1| - 1], ds2[..|ds2| - 1]);
    }
  }

  /** Raising the series counts of a program row by row (and changing nothing
      else) never lowers its total cost, given non-negative rows and rates. */
  lemma CostMonotoneInSeries(p: Program, q: Program, mssFix: real, mssVar: real, lohn: real, faktor: real)
    requires p.columns == q.columns && |p.rows| == |q.rows|
    requires forall i :: 0 <= i < |p.rows| ==>
      NonNegativeRow(p.rows[i]) && p.rows[i].serienJahr <= q.rows[i].serienJahr &&
      q.rows[i] == p.rows[i].(serienJahr := q.rows[i].serienJahr)
    requires mssFix + mssVar + lohn * faktor >= 0.0 && mssFix + mssVar + lohn >= 0.0
    ensures ProgramCost(p, mssFix, mssVar, lohn, faktor).gesKosten <= ProgramCost(q, mssFix, mssVar, lohn, faktor).gesKosten
  {
    var dp := Details(p, mssFix, mssVar, lohn, faktor);
    var dq := Details(q, mssFix, mssVar, lohn, faktor);
    forall i | 0 <= i < |dp| ensures dp[i].kostenGes <= dq[i].kostenGes {
      RowCostMonotone(p.rows[i], q.rows[i].serienJahr, TimeColumns(p.columns), mssFix, mssVar, lohn, faktor);
    }
    SumKostenMonotone(dp, dq);
  }

  /** With non-negative rows every row's processing hours are non-negative. */
  lemma DetailProcessingNonNegative(prog: Program, mssFix: real, mssVar: real, lohn: real, faktor: real)
    requires forall i :: 0 <= i < |prog.rows| ==> NonNegativeRow(prog.rows[i])
    ensures var ds := Details(prog, mssFix, mssVar, lohn, faktor);
      forall i :: 0 <= i < |ds| ==> ds[i].tBearbH >= 0.0
  {
    var ds := Details(prog, mssFix, mssVar, lohn, faktor);
    forall i | 0 <= i < |ds| ensures ds[i].tBearbH >= 0.0 {
      var row := prog.rows[i];
      IntMulMonotone(0, row.serienJahr, row.stueckSerie);
      MulMonotone(0.0, (row.serienJahr * row.stueckSerie) as real, BearbMinutes(row, TimeColumns(prog.columns)));
    }
  }
}
