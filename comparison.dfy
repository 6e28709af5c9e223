/** The key figures the page derives from the two costings: each machine's
    utilisation, the yearly saving of B over A and its percentage, the simple
    amortisation of B's higher yearly fixed cost by the saving, the verdict
    on it and the recommendation. */
module Comparison {
  import opened MachineHourRate

  /** Utilisation in percent: the program's hours over the machine's
      effective hours, and 0 when the machine has no effective hours. */
  function Auslastung(gesStunden: real, stundenEffektiv: real): (r: real)
    ensures stundenEffektiv > 0.0 ==> r * stundenEffektiv == gesStunden * 100.0
    ensures stundenEffektiv <= 0.0 ==> r == 0.0
  {
    if stundenEffektiv > 0.0 then gesStunden / stundenEffektiv * 100.0 else 0.0
  }

  /** On a machine with effective hours, the utilisation is at most 100 %
      exactly when the program fits into the effective hours, and it is
      never negative for a program with non-negative hours. */
  lemma AuslastungWithinCapacity(gesStunden: real, stundenEffektiv: real)
    requires stundenEffektiv > 0.0
    ensures Auslastung(gesStunden, stundenEffektiv) <= 100.0 <==> gesStunden <= stundenEffektiv
    ensures gesStunden >= 0.0 ==> Auslastung(gesStunden, stundenEffektiv) >= 0.0
  {
    var r := Auslastung(gesStunden, stundenEffektiv);
    ScaledCompare(r, 100.0, stundenEffektiv);
    var p := r * stundenEffektiv;
    assert p == gesStunden * 100.0;
    assert r <= 100.0 <==> p <= 100.0 * stundenEffektiv;
    ScaledCompare(0.0, r, stundenEffektiv);
  }

  /** Multiplying both sides by a positive number keeps the order, both ways. */
  lemma ScaledCompare(x: real, y: real, c: real)
    requires c > 0.0
    ensures x <= y <==> x * c <= y * c
    ensures x < y <==> x * c < y * c
  {
    if x <= y {
      ProductMonotone(c, x, y);
    } else {
      StrictProduct(y, x, c);
    }
    if x < y {
      StrictProduct(x, y, c);
    } else {
      ProductMonotone(c, y, x);
    }
  }

  /** The saving in percent of A's cost, and 0 when A's cost is not
      positive. */
  function ErsparnisProz(ersparnis: real, kostenA: real): (r: real)
    ensures kostenA > 0.0 ==> r * kostenA == ersparnis * 100.0
    ensures kostenA <= 0.0 ==> r == 0.0
  {
    if kostenA > 0.0 then ersparnis / kostenA * 100.0 else 0.0
  }

  /** With a positive cost on A and a non-negative cost on B, the percentage
      has the sign of the saving and is at most 100, reaching 100 only when B
      costs nothing. */
  lemma ErsparnisProzBounds(kostenA: real, kostenB: real)
    requires kostenA > 0.0 && kostenB >= 0.0
    ensures ErsparnisProz(kostenA - kostenB, kostenA) > 0.0 <==> kostenA > kostenB
    ensures ErsparnisProz(kostenA - kostenB, kostenA) <= 100.0
    ensures ErsparnisProz(kostenA - kostenB, kostenA) == 100.0 <==> kostenB == 0.0
  {
    var r := ErsparnisProz(kostenA - kostenB, kostenA);
    ScaledCompare(0.0, r, kostenA);
    ScaledCompare(r, 100.0, kostenA);
    ScaledCompare(100.0, r, kostenA);
  }

  /** The amortisation figure: shown only when B saves money, as the years the
      saving needs to cover B's higher yearly fixed cost. */
  datatype Amortisation = NotApplicable | Jahre(jahre: real)

  function Amortise(fixA: real, fixB: real, ersparnis: real): (a: Amortisation)
    ensures a.Jahre? <==> ersparnis > 0.0
    ensures a.Jahre? ==> a.jahre * ersparnis == fixB - fixA
  {
    if ersparnis > 0.0 then Jahre((fixB - fixA) / ersparnis) else NotApplicable
  }

  /** The verdict shown under the amortisation figure. */
  datatype Verdict = Wirtschaftlich | KritischPruefen | MaschineAGuenstiger

  function Bewertung(a: Amortisation, n: Years): (v: Verdict)
    ensures v == MaschineAGuenstiger <==> a.NotApplicable?
    ensures a.Jahre? ==> (v == Wirtschaftlich <==> a.jahre < n as real)
  {
    match a
    case NotApplicable => MaschineAGuenstiger
    case Jahre(j) => if j < n as real then Wirtschaftlich else KritischPruefen
  }

  /** The verdict without the division: B is economical exactly when it
      saves money and n years of saving exceed its extra yearly fixed cost;
      it is to be checked when it saves money but not that much; and A is
      cheaper exactly when B saves nothing. */
  lemma VerdictMeaning(fixA: real, fixB: real, ersparnis: real, n: Years)
    ensures Bewertung(Amortise(fixA, fixB, ersparnis), n) == Wirtschaftlich <==>
      ersparnis > 0.0 && fixB - fixA < (n as real) * ersparnis
    ensures Bewertung(Amortise(fixA, fixB, ersparnis), n) == KritischPruefen <==>
      ersparnis > 0.0 && fixB - fixA >= (n as real) * ersparnis
    ensures Bewertung(Amortise(fixA, fixB, ersparnis), n) == MaschineAGuenstiger <==> ersparnis <= 0.0
  {
    var a := Amortise(fixA, fixB, ersparnis);
    if ersparnis > 0.0 {
      ScaledCompare(a.jahre, n as real, ersparnis);
    }
  }

  /** A B whose yearly fixed cost is no higher than A's is economical as soon
      as it saves anything. */
  lemma CheaperFixedCostIsEconomical(fixA: real, fixB: real, ersparnis: real, n: Years)
    requires fixB <= fixA && ersparnis > 0.0
    ensures Bewertung(Amortise(fixA, fixB, ersparnis), n) == Wirtschaftlich
  {
    VerdictMeaning(fixA, fixB, ersparnis, n);
    ProductNonNegative(n as real, ersparnis);
    StrictProduct(0.0, n as real, ersparnis);
  }

  /** The recommendation: B with its saving, percentage and amortisation
      years when it saves money, otherwise A, stating how much more B costs
      per year. */
  datatype Empfehlung =
    | MaschineB(ersparnis: real, ersparnisProz: real, amortisationJahre: real)
    | MaschineA(mehrkostenB: real)

  function Empfehle(fixA: real, fixB: real, ersparnis: real, ersparnisProz: real): (e: Empfehlung)
    ensures e.MaschineB? <==> ersparnis > 0.0
    ensures e.MaschineB? ==>
      e.ersparnis == ersparnis && e.ersparnisProz == ersparnisProz &&
      Amortise(fixA, fixB, ersparnis) == Jahre(e.amortisationJahre)
    ensures e.MaschineA? ==> e.mehrkostenB >= 0.0 && e.mehrkostenB + ersparnis == 0.0
  {
    if ersparnis > 0.0 then
      MaschineB(ersparnis, ersparnisProz, Amortise(fixA, fixB, ersparnis).jahre)
    else
      MaschineA(if ersparnis < 0.0 then -ersparnis else ersparnis)
  }
}
