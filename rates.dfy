/** The machine-hour rate model (Maschinenstundensatz, MSS) of one machine:
    the yearly fixed cost built from six parts, the effective operating hours,
    the fixed cost per effective hour and the energy cost per hour.
    Amounts are exact reals; the source computes them in floating point. */
module MachineHourRate {

  /** Useful life in whole years; the input field refuses values below 1. */
  type Years = n: int | n >= 1 witness 1

  /** The inputs of one rate computation, named after the source's parameters. */
  datatype MachineParams = MachineParams(
    ak: real,           // acquisition cost
    n: Years,           // useful life
    zins: real,         // imputed interest rate (fraction)
    wartungSatz: real,  // maintenance rate (fraction of ak)
    raum: real,         // floor space in m²
    rPreis: real,       // floor-space price per m² and month
    vers: real,         // insurance per year
    werkzeug: real,     // tooling per year
    hJahr: real,        // operating hours per year
    nutzgrad: real,     // utilisation (fraction)
    kw: real,           // power draw
    sPreis: real)       // electricity price per kWh

  /** The record the rate computation returns. */
  datatype MachineRates = MachineRates(
    mssFix: real,           // fixed cost per effective hour
    mssVar: real,           // energy cost per hour
    fixJahr: real,          // yearly fixed cost
    stundenEffektiv: real,  // effective hours per year
    afa: real,              // straight-line depreciation
    zinsen: real,           // imputed interest
    wartung: real,          // maintenance
    raumkosten: real,       // yearly floor-space cost
    versicherung: real,     // insurance
    werkzeug: real)         // tooling

  /** All inputs that are amounts, rates or quantities are non-negative. */
  predicate NonNegativeParams(p: MachineParams)
  {
    p.ak >= 0.0 && p.zins >= 0.0 && p.wartungSatz >= 0.0 && p.raum >= 0.0 &&
    p.rPreis >= 0.0 && p.vers >= 0.0 && p.werkzeug >= 0.0 && p.hJahr >= 0.0 &&
    p.nutzgrad >= 0.0 && p.kw >= 0.0 && p.sPreis >= 0.0
  }

  /** The machine-hour rate: the yearly fixed cost is the sum of its six named
      parts; depreciation spreads ak evenly over n years; interest is charged
      on half the acquisition cost; the fixed hourly rate spreads the yearly
      fixed cost over the effective hours, and is 0 when there are none. */
  function BerechneMss(p: MachineParams): (r: MachineRates)
    ensures r.fixJahr == r.afa + r.zinsen + r.wartung + r.raumkosten + r.versicherung + r.werkzeug
    ensures r.afa * (p.n as real) == p.ak
    ensures 2.0 * r.zinsen == p.ak * p.zins
    ensures r.wartung == p.ak * p.wartungSatz
    ensures r.raumkosten == 12.0 * (p.raum * p.rPreis)
    ensures r.versicherung == p.vers && r.werkzeug == p.werkzeug
    ensures r.stundenEffektiv == p.hJahr * p.nutzgrad
    ensures r.stundenEffektiv <= 0.0 ==> r.mssFix == 0.0
    ensures r.stundenEffektiv > 0.0 ==> r.mssFix * r.stundenEffektiv == r.fixJahr
    ensures r.mssVar == p.kw * p.sPreis
  {
    var afa := p.ak / (p.n as real);
    var zinsen := (p.ak / 2.0) * p.zins;
    var wartung := p.ak * p.wartungSatz;
    var raumkosten := p.raum * p.rPreis * 12.0;
    var fixJahr := afa + zinsen + wartung + raumkosten + p.vers + p.werkzeug;
    var stundenEffektiv := p.hJahr * p.nutzgrad;
    var mssFix := if stundenEffektiv > 0.0 then fixJahr / stundenEffektiv else 0.0;
    var mssVar := p.kw * p.sPreis;
    MachineRates(mssFix, mssVar, fixJahr, stundenEffektiv,
                 afa, zinsen, wartung, raumkosten, p.vers, p.werkzeug)
  }

  /** With non-negative inputs no cost component is negative, and neither are
      the yearly fixed cost and the two hourly rates. */
  lemma RatesNonNegative(p: MachineParams)
    requires NonNegativeParams(p)
    ensures var r := BerechneMss(p);
      r.afa >= 0.0 && r.zinsen >= 0.0 && r.wartung >= 0.0 && r.raumkosten >= 0.0 &&
      r.fixJahr >= 0.0 && r.stundenEffektiv >= 0.0 && r.mssFix >= 0.0 && r.mssVar >= 0.0
  {
    var r := BerechneMss(p);
    ProductNonNegative(p.ak, p.zins);
    ProductNonNegative(p.ak, p.wartungSatz);
    ProductNonNegative(p.raum, p.rPreis);
    ProductNonNegative(p.hJahr, p.nutzgrad);
    ProductNonNegative(p.kw, p.sPreis);
    if r.stundenEffektiv > 0.0 {
      if r.mssFix < 0.0 {
        NegativeTimesPositive(r.mssFix, r.stundenEffektiv);
        assert false;
      }
    }
  }

  /** More effective hours never raise the fixed hourly rate: two machines
      with the same (non-negative) yearly fixed cost, the one with more
      effective hours has the lower or equal rate. */
  lemma FixedRateFallsWithHours(p: MachineParams, q: MachineParams)
    requires BerechneMss(p).fixJahr == BerechneMss(q).fixJahr >= 0.0
    requires 0.0 < BerechneMss(p).stundenEffektiv <= BerechneMss(q).stundenEffektiv
    ensures BerechneMss(q).mssFix <= BerechneMss(p).mssFix
  {
    var rp, rq := BerechneMss(p), BerechneMss(q);
    if rq.mssFix > rp.mssFix {
      // rq.mssFix * hq == f == rp.mssFix * hp <= rp.mssFix * hq < rq.mssFix * hq
      assert rp.mssFix >= 0.0 by {
        if rp.mssFix < 0.0 { NegativeTimesPositive(rp.mssFix, rp.stundenEffektiv); }
      }
      ProductMonotone(rp.mssFix, rp.stundenEffektiv, rq.stundenEffektiv);
      StrictProduct(rp.mssFix, rq.mssFix, rq.stundenEffektiv);
      assert false;
    }
  }

  lemma ProductNonNegative(x: real, y: real)
    requires x >= 0.0 && y >= 0.0
    ensures x * y >= 0.0
  {}

  lemma NegativeTimesPositive(x: real, y: real)
    requires x < 0.0 && y > 0.0
    ensures x * y < 0.0
  {}

  lemma ProductMonotone(c: real, x: real, y: real)
    requires c >= 0.0 && x <= y
    ensures c * x <= c * y
  {}

  lemma StrictProduct(x: real, y: real, c: real)
    requires x < y && c > 0.0
    ensures x * c < y * c
  {}

  /** The page's default machine A: 600000 acquisition cost over 20 years at
      5 % interest, 2.5 % maintenance, 20 m² at 15 per month, 500 insurance,
      3000 tooling, 2400 hours at 75 %, 8 kW at 0.30 per kWh. */
  lemma DefaultMachineA()
    ensures var r := BerechneMss(MachineParams(600000.0, 20, 0.05, 0.025, 20.0, 15.0,
                                               500.0, 3000.0, 2400.0, 0.75, 8.0, 0.30));
      r.afa == 30000.0 && r.zinsen == 15000.0 && r.wartung == 15000.0 &&
      r.raumkosten == 3600.0 && r.fixJahr == 67100.0 && r.stundenEffektiv == 1800.0 &&
      r.mssVar == 2.4 && r.mssFix * 1800.0 == 67100.0
  {}

  /** The page's default machine B: the same 600000 over 20 years at 5 %,
      4.5 % maintenance, 35 m² at 15 per month, 1200 insurance, 8000 tooling,
      5000 hours at 85 %, 18 kW at 0.30 per kWh. Its yearly fixed cost is
      20400 above A's. */
  lemma DefaultMachineB()
    ensures var r := BerechneMss(MachineParams(600000.0, 20, 0.05, 0.045, 35.0, 15.0,
                                               1200.0, 8000.0, 5000.0, 0.85, 18.0, 0.30));
      r.afa == 30000.0 && r.zinsen == 15000.0 && r.wartung == 27000.0 &&
      r.raumkosten == 6300.0 && r.fixJahr == 87500.0 && r.stundenEffektiv == 4250.0 &&
      r.mssVar == 5.4 && r.mssFix * 4250.0 == 87500.0
  {}
}
