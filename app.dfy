/** The page's calculation pipeline: from the sidebar inputs and the
    production program to the machine-hour rates of both machines, the two
    program costings and the key figures. Both machines share acquisition
    cost, useful life, interest rate, labour rate, electricity price and
    floor-space price; A's operator factor is fixed at 1.0. */
module CostComparison {
  import opened MachineHourRate
  import opened ProgramCosting
  import opened Comparison
  import opened Sweeps

  /** Machine A is operated full time. */
  const BedienA: real := 1.0

  /** The per-machine sidebar inputs (rates as fractions, not percent). */
  datatype MachineInputs = MachineInputs(
    hJahr: real,      // operating hours per year
    nutzgrad: real,   // utilisation
    wartung: real,    // maintenance rate
    raum: real,       // floor space in m²
    energie: real,    // power draw in kW
    vers: real,       // insurance per year
    werkzeug: real)   // tooling per year

  /** All sidebar inputs; `bedienB` is B's operator factor. */
  datatype Inputs = Inputs(
    ak: real,
    n: Years,
    zinsSatz: real,
    lohnSatz: real,
    stromPreis: real,
    raumPreis: real,
    a: MachineInputs,
    b: MachineInputs,
    bedienB: real)

  /** The rate computation's parameters for one machine: shared inputs plus
      that machine's own. */
  function ParamsOf(inp: Inputs, m: MachineInputs): MachineParams
  {
    MachineParams(inp.ak, inp.n, inp.zinsSatz, m.wartung, m.raum, inp.raumPreis,
                  m.vers, m.werkzeug, m.hJahr, m.nutzgrad, m.energie, inp.stromPreis)
  }

  /** Everything the page's key-figure section shows. */
  datatype Kernergebnisse = Kernergebnisse(
    resA: MachineRates,
    resB: MachineRates,
    resultA: ProgramResult,
    resultB: ProgramResult,
    auslastungA: real,
    auslastungB: real,
    ersparnis: real,
    ersparnisProz: real,
    amortisation: Amortisation,
    bewertung: Verdict,
    empfehlung: Empfehlung)

  /** The page: both machines' rates, both costings of the same program
      table, and the figures derived from them. */
  method Evaluate(inp: Inputs, dfSerien: Program) returns (k: Kernergebnisse)
    ensures k.resA == BerechneMss(ParamsOf(inp, inp.a)) && k.resB == BerechneMss(ParamsOf(inp, inp.b))
    ensures k.resultA == ProgramCost(dfSerien, k.resA.mssFix, k.resA.mssVar, inp.lohnSatz, BedienA)
    ensures k.resultB == ProgramCost(dfSerien, k.resB.mssFix, k.resB.mssVar, inp.lohnSatz, inp.bedienB)
    ensures k.auslastungA == Auslastung(k.resultA.gesStunden, k.resA.stundenEffektiv)
    ensures k.auslastungB == Auslastung(k.resultB.gesStunden, k.resB.stundenEffektiv)
    ensures k.ersparnis == k.resultA.gesKosten - k.resultB.gesKosten
    ensures k.ersparnis == SavingAt(dfSerien, k.resA.mssFix, k.resA.mssVar, k.resB.mssFix, k.resB.mssVar,
                                    inp.lohnSatz, BedienA, inp.bedienB)
    ensures k.ersparnisProz == ErsparnisProz(k.ersparnis, k.resultA.gesKosten)
    ensures k.amortisation == Amortise(k.resA.fixJahr, k.resB.fixJahr, k.ersparnis)
    ensures k.bewertung == Bewertung(k.amortisation, inp.n)
    ensures k.empfehlung == Empfehle(k.resA.fixJahr, k.resB.fixJahr, k.ersparnis, k.ersparnisProz)
  {
    var resA := BerechneMss(ParamsOf(inp, inp.a));
    var resB := BerechneMss(ParamsOf(inp, inp.b));
    var dfA := dfSerien;
    var dfB := dfSerien;
    var resultA := KalkuliereProgrammDetail(dfA, resA.mssFix, resA.mssVar, inp.lohnSatz, BedienA);
    var resultB := KalkuliereProgrammDetail(dfB, resB.mssFix, resB.mssVar, inp.lohnSatz, inp.bedienB);
    var auslastungA := Auslastung(resultA.gesStunden, resA.stundenEffektiv);
    var auslastungB := Auslastung(resultB.gesStunden, resB.stundenEffektiv);
    var ersparnis := resultA.gesKosten - resultB.gesKosten;
    var ersparnisProz := ErsparnisProz(ersparnis, resultA.gesKosten);
    var amortisation := Amortise(resA.fixJahr, resB.fixJahr, ersparnis);
    k := Kernergebnisse(resA, resB, resultA, resultB, auslastungA, auslastungB, ersparnis, ersparnisProz,
                        amortisation, Bewertung(amortisation, inp.n),
                        Empfehle(resA.fixJahr, resB.fixJahr, ersparnis, ersparnisProz));
  }

  /** Both costings run on copies of the same table, so they charge the same
      hours and units whatever the rates; and when A's processing-time column
      is present (as in the page's table), B's costing too uses A's times on
      every row. */
  lemma BothCostingsShareTimes(prog: Program, mssFixA: real, mssVarA: real, mssFixB: real, mssVarB: real,
                               lohn: real, bedienB: real)
    ensures ProgramCost(prog, mssFixA, mssVarA, lohn, BedienA).gesStunden ==
            ProgramCost(prog, mssFixB, mssVarB, lohn, bedienB).gesStunden
    ensures ProgramCost(prog, mssFixA, mssVarA, lohn, BedienA).gesStueck ==
            ProgramCost(prog, mssFixB, mssVarB, lohn, bedienB).gesStueck
    ensures SpalteBearbA in prog.columns ==>
      forall d :: d in ProgramCost(prog, mssFixB, mssVarB, lohn, bedienB).details ==> d.machine == A
  {
    HoursIndependentOfRates(prog, mssFixA, mssVarA, lohn, BedienA, mssFixB, mssVarB, lohn, bedienB);
    TimeColumnsSelected(prog, prog, mssFixB, mssVarB, lohn, bedienB);
  }

  /** The same hours on both machines make the two utilisations differ only
      by the effective hours: utilisation times effective hours is the same
      on A and on B. */
  lemma UtilisationsShareHours(inp: Inputs, dfSerien: Program)
    requires BerechneMss(ParamsOf(inp, inp.a)).stundenEffektiv > 0.0
    requires BerechneMss(ParamsOf(inp, inp.b)).stundenEffektiv > 0.0
    ensures var resA, resB := BerechneMss(ParamsOf(inp, inp.a)), BerechneMss(ParamsOf(inp, inp.b));
      var resultA := ProgramCost(dfSerien, resA.mssFix, resA.mssVar, inp.lohnSatz, BedienA);
      var resultB := ProgramCost(dfSerien, resB.mssFix, resB.mssVar, inp.lohnSatz, inp.bedienB);
      Auslastung(resultA.gesStunden, resA.stundenEffektiv) * resA.stundenEffektiv ==
      Auslastung(resultB.gesStunden, resB.stundenEffektiv) * resB.stundenEffektiv
  {
    var resA, resB := BerechneMss(ParamsOf(inp, inp.a)), BerechneMss(ParamsOf(inp, inp.b));
    BothCostingsShareTimes(dfSerien, resA.mssFix, resA.mssVar, resB.mssFix, resB.mssVar,
                           inp.lohnSatz, inp.bedienB);
  }

  /** How much more B's yearly fixed cost is than A's, from the inputs that
      differ between the machines. */
  function ExtraFixedCost(inp: Inputs): real
  {
    inp.ak * (inp.b.wartung - inp.a.wartung) + 12.0 * (inp.raumPreis * (inp.b.raum - inp.a.raum)) +
    (inp.b.vers - inp.a.vers) + (inp.b.werkzeug - inp.a.werkzeug)
  }

  /** Both machines cost the same `ak` over the same `n` years at the same
      interest rate, so depreciation and interest cancel in the difference of
      the yearly fixed costs: the amortisation weighs only maintenance,
      floor space, insurance and tooling against the saving. */
  lemma FixDifferenceExcludesCapital(inp: Inputs)
    ensures BerechneMss(ParamsOf(inp, inp.b)).fixJahr - BerechneMss(ParamsOf(inp, inp.a)).fixJahr ==
      ExtraFixedCost(inp)
  {
    var ra, rb := BerechneMss(ParamsOf(inp, inp.a)), BerechneMss(ParamsOf(inp, inp.b));
    assert ra.afa == rb.afa && ra.zinsen == rb.zinsen;
    assert rb.wartung - ra.wartung == inp.ak * (inp.b.wartung - inp.a.wartung);
    assert rb.raumkosten - ra.raumkosten == 12.0 * (inp.raumPreis * (inp.b.raum - inp.a.raum));
  }

  /** The page judges B economical exactly when B saves money on the program
      and n years of that saving exceed B's extra yearly maintenance, floor
      space, insurance and tooling cost. */
  lemma EconomicalVerdict(inp: Inputs, dfSerien: Program)
    ensures var resA, resB := BerechneMss(ParamsOf(inp, inp.a)), BerechneMss(ParamsOf(inp, inp.b));
      var ersparnis := SavingAt(dfSerien, resA.mssFix, resA.mssVar, resB.mssFix, resB.mssVar,
                                inp.lohnSatz, BedienA, inp.bedienB);
      Bewertung(Amortise(resA.fixJahr, resB.fixJahr, ersparnis), inp.n) == Wirtschaftlich <==>
        ersparnis > 0.0 && ExtraFixedCost(inp) < (inp.n as real) * ersparnis
  {
    var resA, resB := BerechneMss(ParamsOf(inp, inp.a)), BerechneMss(ParamsOf(inp, inp.b));
    var ersparnis := SavingAt(dfSerien, resA.mssFix, resA.mssVar, resB.mssFix, resB.mssVar,
                              inp.lohnSatz, BedienA, inp.bedienB);
    FixDifferenceExcludesCapital(inp);
    VerdictMeaning(resA.fixJahr, resB.fixJahr, ersparnis, inp.n);
  }

  // ----- The page's defaults -----

  /** The sidebar's default inputs. */
  function DefaultInputs(): Inputs
  {
    Inputs(600000.0, 20, 0.05, 65.0, 0.30, 15.0,
           MachineInputs(2400.0, 0.75, 0.025, 20.0, 8.0, 500.0, 3000.0),
           MachineInputs(5000.0, 0.85, 0.045, 35.0, 18.0, 1200.0, 8000.0),
           0.3)
  }

  /** The default production program: three series, with the time columns of
      both machines. */
  function DefaultProgram(): Program
  {
    Program({"Serie", "Serien/Jahr", "Stück/Serie", SpalteBearbA, "Bearbzeit (min/Stk) B",
             "Rüstzeit (min) A", "Rüstzeit (min) B"},
            [SeriesRow("Welle Typ 1", 20, 50, 10.0, 8.0, 45.0, 30.0),
             SeriesRow("Gehäuse groß", 10, 20, 45.0, 30.0, 120.0, 90.0),
             SeriesRow("Flansch klein", 50, 100, 5.0, 4.0, 30.0, 20.0)])
  }

  /** On any machine the default program makes 6200 units in 2200/3
      processing hours and 60 setup hours, all taken from A's columns (with
      B's own columns it would take fewer); its cost is those hours at the
      processing and setup rates. */
  lemma DefaultProgramCost(mssFix: real, mssVar: real, lohn: real, faktor: real)
    ensures var r := ProgramCost(DefaultProgram(), mssFix, mssVar, lohn, faktor);
      r.gesStueck == 6200 && r.gesStunden * 3.0 == 2380.0 &&
      3.0 * r.gesKosten == 2200.0 * (mssFix + mssVar + lohn * faktor) + 180.0 * (mssFix + mssVar + lohn)
  {
    var ds := Details(DefaultProgram(), mssFix, mssVar, lohn, faktor);
    assert TimeColumns(DefaultProgram().columns) == A;
    assert ds[..2][..1] == ds[..1];
    assert ds[..3] == ds;
    var d0, d1, d2 := ds[0], ds[1], ds[2];
    var p, s := mssFix + mssVar + lohn * faktor, mssFix + mssVar + lohn;
    assert d0.stueckJahr == 1000 && d0.tBearbH * 6.0 == 1000.0 && d0.tRuestH == 15.0;
    assert d1.stueckJahr == 200 && d1.tBearbH == 150.0 && d1.tRuestH == 20.0;
    assert d2.stueckJahr == 5000 && d2.tBearbH * 6.0 == 2500.0 && d2.tRuestH == 25.0;
    assert 6.0 * d0.kostenGes == 1000.0 * p + 90.0 * s;
    assert d1.kostenGes == 150.0 * p + 20.0 * s;
    assert 6.0 * d2.kostenGes == 2500.0 * p + 150.0 * s;
    assert SumStueck(ds[..1]) == 1000;
    assert SumStueck(ds[..2]) == 1200;
    assert SumStunden(ds[..1]) == d0.tBearbH + 15.0;
    assert SumStunden(ds[..2]) == d0.tBearbH + 15.0 + 170.0;
    assert SumKosten(ds[..1]) == d0.kostenGes;
    assert SumKosten(ds[..2]) == d0.kostenGes + d1.kostenGes;
  }

  /** With the page's defaults, B saves more than 44000 a year and pays back
      its 20400 higher yearly fixed cost in under a year: the verdict is
      "wirtschaftlich". */
  lemma DefaultPageIsEconomical()
    ensures var inp, prog := DefaultInputs(), DefaultProgram();
      var resA, resB := BerechneMss(ParamsOf(inp, inp.a)), BerechneMss(ParamsOf(inp, inp.b));
      var ersparnis := SavingAt(prog, resA.mssFix, resA.mssVar, resB.mssFix, resB.mssVar,
                                inp.lohnSatz, BedienA, inp.bedienB);
      ersparnis > 44000.0 && resB.fixJahr - resA.fixJahr == 20400.0 &&
      Amortise(resA.fixJahr, resB.fixJahr, ersparnis).jahre < 1.0 &&
      Bewertung(Amortise(resA.fixJahr, resB.fixJahr, ersparnis), inp.n) == Wirtschaftlich
  {
    var inp, prog := DefaultInputs(), DefaultProgram();
    var resA, resB := BerechneMss(ParamsOf(inp, inp.a)), BerechneMss(ParamsOf(inp, inp.b));
    DefaultMachineA();
    DefaultMachineB();
    DefaultProgramCost(resA.mssFix, resA.mssVar, inp.lohnSatz, BedienA);
    DefaultProgramCost(resB.mssFix, resB.mssVar, inp.lohnSatz, inp.bedienB);
    var ersparnis := SavingAt(prog, resA.mssFix, resA.mssVar, resB.mssFix, resB.mssVar,
                              inp.lohnSatz, BedienA, inp.bedienB);
    assert ersparnis > 44000.0;
    var a := Amortise(resA.fixJahr, resB.fixJahr, ersparnis);
    ScaledCompare(a.jahre, 1.0, ersparnis);
    VerdictMeaning(resA.fixJahr, resB.fixJahr, ersparnis, inp.n);
  }
}
