/**
  The scenario calculator: from one simulation record it derives, for each
  category, a classic and an eco value on the cost axis and on the carbon
  axis, sums them per scenario, and derives the eco surcharge, the carbon
  savings in tonnes and in currency, the carbon-adjusted eco cost and the
  payback period.
 */
module Calculator {
  import opened Types
  import opened Data

  /** Fixed reduction applied to site energy in the eco scenario. */
  const EnergyEcoFactor: real := 0.8

  /** The value of a category in one scenario: its quantity times a unit price or factor. */
  function Value(quantity: real, rate: real): real {
    quantity * rate
  }

  /**
    Builds a breakdown row from the two scenario values. Its property (the
    row is `Consistent`) is stated per row by `BreakdownsConsistent`: a
    contract here would be instantiated for all seventeen rows inside
    `Calculate` and swamp the row lemmas.
   */
  function CalculateBreakdown(classique: real, eco: real): Breakdown {
    Breakdown(classique, eco, eco - classique)
  }

  /**
    Years for the monetised carbon savings to pay back the eco surcharge,
    or the sentinel 0 when there is no surcharge, no saving or no lifetime.
   */
  function Amortissement(surcout: real, economieEuros: real, dureeDeVie: real): (a: real)
    ensures a >= 0.0
    ensures a > 0.0 <==> surcout > 0.0 && economieEuros > 0.0 && dureeDeVie > 0.0
    ensures a > 0.0 ==> a == surcout * dureeDeVie / economieEuros
  {
    if surcout > 0.0 && economieEuros > 0.0 && dureeDeVie > 0.0 then
      var annual := economieEuros / dureeDeVie;
      var years := surcout / annual;
      PaybackYears(surcout, economieEuros, dureeDeVie);
      years
    else
      0.0
  }

  /** Dividing by the annual saving is dividing by the saving per lifetime. */
  lemma PaybackYears(surcout: real, economieEuros: real, dureeDeVie: real)
    requires surcout > 0.0 && economieEuros > 0.0 && dureeDeVie > 0.0
    ensures economieEuros / dureeDeVie > 0.0
    ensures surcout / (economieEuros / dureeDeVie) == surcout * dureeDeVie / economieEuros
    ensures surcout / (economieEuros / dureeDeVie) > 0.0
  {
    var annual := economieEuros / dureeDeVie;
    assert annual * dureeDeVie == economieEuros;
    var years := surcout / annual;
    assert years * annual == surcout;
    assert years * economieEuros == surcout * dureeDeVie;
  }

  /** The full calculation, one binding per quantity as in the source. */
  function Calculate(state: SimulationState): (r: CalculationResults)
    ensures r.amortissement >= 0.0
    ensures r.amortissement > 0.0 <==>
              r.cout.surcout > 0.0 && r.carbone.economieEuros > 0.0 && state.dureeDeVie > 0.0
  {
    var f := carbonFootprints;
    // Cost
    var coutBetonClassique := Value(state.volumeBeton, state.prixBetonClassique);
    var coutBetonEco := Value(state.volumeBeton, state.prixBetonBasCarbone);
    var coutAcierClassique := Value(state.poidsAcier, state.prixAcierClassique);
    var coutAcierEco := Value(state.poidsAcier, state.prixAcierBasCarbone);
    var coutCuivreClassique := Value(state.poidsCuivre, state.prixCuivreClassique);
    var coutCuivreEco := Value(state.poidsCuivre, state.prixCuivreRecycle);
    var coutEnrobesClassique := Value(state.volumeEnrobes, state.prixEnrobeChaud);
    var coutEnrobesEco := Value(state.volumeEnrobes, state.prixEnrobeFroid);
    var coutTransportClassique := Value(state.kmTransportMarchandises, state.prixKmCamionDiesel);
    var coutTransportEco := Value(state.kmTransportMarchandises, state.prixKmCamionElectrique);
    var coutDeplacementsClassique := Value(state.kmDeplacementsPersonnel, state.prixKmVoitureEssence);
    var coutDeplacementsEco := Value(state.kmDeplacementsPersonnel, state.prixKmVoitureElectrique);
    var coutEnergieClassique := Value(state.kwhEnergie, state.prixKwhDiesel);
    var coutEnergieEco := Value(state.kwhEnergie, state.prixKwhDiesel) * EnergyEcoFactor;
    var coutEnginsClassique := 0.0;
    var coutEnginsEco := 0.0;
    // Carbon, in tonnes of CO2
    var carboneBetonClassique := Value(state.volumeBeton, f.betonClassique);
    var carboneBetonEco := Value(state.volumeBeton, f.betonBasCarbone);
    var carboneAcierClassique := Value(state.poidsAcier, f.acierClassique);
    var carboneAcierEco := Value(state.poidsAcier, f.acierBasCarbone);
    var carboneCuivreClassique := Value(state.poidsCuivre, f.cuivreClassique);
    var carboneCuivreEco := Value(state.poidsCuivre, f.cuivreRecycle);
    var carboneEnrobesClassique := Value(state.volumeEnrobes, f.enrobeChaud);
    var carboneEnrobesEco := Value(state.volumeEnrobes, f.enrobeFroid);
    var carboneTransportClassique := Value(state.kmTransportMarchandises, f.camionDiesel);
    var carboneTransportEco := Value(state.kmTransportMarchandises, f.camionElectrique);
    var carboneDeplacementsClassique := Value(state.kmDeplacementsPersonnel, f.voitureEssence);
    var carboneDeplacementsEco := Value(state.kmDeplacementsPersonnel, f.voitureElectrique);
    var carboneEnergieClassique := Value(state.kwhEnergie, f.kwhDiesel);
    var carboneEnergieEco := Value(state.kwhEnergie, f.kwhDiesel) * EnergyEcoFactor;
    var carboneEnginsClassique := state.co2EnginsClassique;
    var carboneEnginsEco := state.co2EnginsEco;
    // Totals
    var totalCoutClassique := coutBetonClassique + coutAcierClassique + coutCuivreClassique
      + coutEnrobesClassique + coutTransportClassique + coutDeplacementsClassique + coutEnergieClassique;
    var totalCoutEco := coutBetonEco + coutAcierEco + coutCuivreEco
      + coutEnrobesEco + coutTransportEco + coutDeplacementsEco + coutEnergieEco;
    var totalCarboneClassique := carboneBetonClassique + carboneAcierClassique + carboneCuivreClassique
      + carboneEnrobesClassique + carboneTransportClassique + carboneDeplacementsClassique
      + carboneEnergieClassique + carboneEnginsClassique;
    var totalCarboneEco := carboneBetonEco + carboneAcierEco + carboneCuivreEco
      + carboneEnrobesEco + carboneTransportEco + carboneDeplacementsEco
      + carboneEnergieEco + carboneEnginsEco;
    // Savings and extra cost
    var surcout := totalCoutEco - totalCoutClassique;
    var economieTCO2 := totalCarboneClassique - totalCarboneEco;
    var economieEuros := economieTCO2 * state.prixTonneCarbone;
    var coutGlobalEcoAjuste := totalCoutEco - economieEuros;
    var amortissement := Amortissement(surcout, economieEuros, state.dureeDeVie);
    CalculationResults(
      cout := CostResults(
        totalClassique := totalCoutClassique,
        totalEco := totalCoutEco,
        surcout := surcout,
        coutGlobalEcoAjuste := coutGlobalEcoAjuste,
        breakdown := CostBreakdowns(
          beton := CalculateBreakdown(coutBetonClassique, coutBetonEco),
          acier := CalculateBreakdown(coutAcierClassique, coutAcierEco),
          cuivre := CalculateBreakdown(coutCuivreClassique, coutCuivreEco),
          enrobes := CalculateBreakdown(coutEnrobesClassique, coutEnrobesEco),
          transportMarchandises := CalculateBreakdown(coutTransportClassique, coutTransportEco),
          deplacementsPersonnel := CalculateBreakdown(coutDeplacementsClassique, coutDeplacementsEco),
          energie := CalculateBreakdown(coutEnergieClassique, coutEnergieEco),
          engins := CalculateBreakdown(coutEnginsClassique, coutEnginsEco),
          coutCarbone := CalculateBreakdown(0.0, -economieEuros))),
      carbone := CarbonResults(
        totalClassique := totalCarboneClassique,
        totalEco := totalCarboneEco,
        economieTCO2 := economieTCO2,
        economieEuros := economieEuros,
        breakdown := CarbonBreakdowns(
          beton := CalculateBreakdown(carboneBetonClassique, carboneBetonEco),
          acier := CalculateBreakdown(carboneAcierClassique, carboneAcierEco),
          cuivre := CalculateBreakdown(carboneCuivreClassique, carboneCuivreEco),
          enrobes := CalculateBreakdown(carboneEnrobesClassique, carboneEnrobesEco),
          transportMarchandises := CalculateBreakdown(carboneTransportClassique, carboneTransportEco),
          deplacementsPersonnel := CalculateBreakdown(carboneDeplacementsClassique, carboneDeplacementsEco),
          energie := CalculateBreakdown(carboneEnergieClassique, carboneEnergieEco),
          engins := CalculateBreakdown(carboneEnginsClassique, carboneEnginsEco))),
      amortissement := amortissement)
  }

  // ---------------------------------------------------------------------------
  // Categories as data: a descriptor table that states, independently of the
  // straight-line calculation, which quantity and which rates each category uses.

  datatype Category =
    | Beton | Acier | Cuivre | Enrobes
    | TransportMarchandises | DeplacementsPersonnel | Energie | Engins

  /** Categories whose values are a quantity times a unit rate (all but equipment). */
  predicate Metered(c: Category) {
    c != Engins
  }

  /** The one quantity field both scenarios of a metered category use. */
  function Quantity(s: SimulationState, c: Category): real
    requires Metered(c)
  {
    match c
    case Beton => s.volumeBeton
    case Acier => s.poidsAcier
    case Cuivre => s.poidsCuivre
    case Enrobes => s.volumeEnrobes
    case TransportMarchandises => s.kmTransportMarchandises
    case DeplacementsPersonnel => s.kmDeplacementsPersonnel
    case Energie => s.kwhEnergie
  }

  /** A classic and an eco unit rate. */
  datatype Rates = Rates(classique: real, eco: real)

  /** Unit prices of a metered category; energy has one price for both scenarios. */
  function PriceRates(s: SimulationState, c: Category): Rates
    requires Metered(c)
  {
    match c
    case Beton => Rates(s.prixBetonClassique, s.prixBetonBasCarbone)
    case Acier => Rates(s.prixAcierClassique, s.prixAcierBasCarbone)
    case Cuivre => Rates(s.prixCuivreClassique, s.prixCuivreRecycle)
    case Enrobes => Rates(s.prixEnrobeChaud, s.prixEnrobeFroid)
    case TransportMarchandises => Rates(s.prixKmCamionDiesel, s.prixKmCamionElectrique)
    case DeplacementsPersonnel => Rates(s.prixKmVoitureEssence, s.prixKmVoitureElectrique)
    case Energie => Rates(s.prixKwhDiesel, s.prixKwhDiesel)
  }

  /** Emission factors of a metered category; energy has one factor for both scenarios. */
  function FactorRates(c: Category): Rates
    requires Metered(c)
  {
    var f := carbonFootprints;
    match c
    case Beton => Rates(f.betonClassique, f.betonBasCarbone)
    case Acier => Rates(f.acierClassique, f.acierBasCarbone)
    case Cuivre => Rates(f.cuivreClassique, f.cuivreRecycle)
    case Enrobes => Rates(f.enrobeChaud, f.enrobeFroid)
    case TransportMarchandises => Rates(f.camionDiesel, f.camionElectrique)
    case DeplacementsPersonnel => Rates(f.voitureEssence, f.voitureElectrique)
    case Energie => Rates(f.kwhDiesel, f.kwhDiesel)
  }

  /** What the eco value is multiplied by: the fixed 20 % reduction for energy, nothing otherwise. */
  function EcoMultiplier(c: Category): real {
    if c == Energie then EnergyEcoFactor else 1.0
  }

  /** The cost row the descriptor table prescribes for a category. */
  function ReferenceCost(s: SimulationState, c: Category): Breakdown {
    if c == Engins then CalculateBreakdown(0.0, 0.0)
    else
      var q := Quantity(s, c);
      CalculateBreakdown(Value(q, PriceRates(s, c).classique), Value(q, PriceRates(s, c).eco) * EcoMultiplier(c))
  }

  /** The carbon row the descriptor table prescribes; equipment emissions are supplied as such. */
  function ReferenceCarbon(s: SimulationState, c: Category): Breakdown {
    if c == Engins then CalculateBreakdown(s.co2EnginsClassique, s.co2EnginsEco)
    else
      var q := Quantity(s, c);
      CalculateBreakdown(Value(q, FactorRates(c).classique), Value(q, FactorRates(c).eco) * EcoMultiplier(c))
  }

  /** The cost row of a category in a result. */
  function CostOf(r: CalculationResults, c: Category): Breakdown {
    var b := r.cout.breakdown;
    match c
    case Beton => b.beton
    case Acier => b.acier
    case Cuivre => b.cuivre
    case Enrobes => b.enrobes
    case TransportMarchandises => b.transportMarchandises
    case DeplacementsPersonnel => b.deplacementsPersonnel
    case Energie => b.energie
    case Engins => b.engins
  }

  /** The carbon row of a category in a result. */
  function CarbonOf(r: CalculationResults, c: Category): Breakdown {
    var b := r.carbone.breakdown;
    match c
    case Beton => b.beton
    case Acier => b.acier
    case Cuivre => b.cuivre
    case Enrobes => b.enrobes
    case TransportMarchandises => b.transportMarchandises
    case DeplacementsPersonnel => b.deplacementsPersonnel
    case Energie => b.energie
    case Engins => b.engins
  }

  /** The eight category rows of the cost axis (the carbon-value row is not a category). */
  function CostRows(r: CalculationResults): seq<Breakdown> {
    var b := r.cout.breakdown;
    [b.beton, b.acier, b.cuivre, b.enrobes, b.transportMarchandises,
     b.deplacementsPersonnel, b.energie, b.engins]
  }

  /** The eight category rows of the carbon axis. */
  function CarbonRows(r: CalculationResults): seq<Breakdown> {
    var b := r.carbone.breakdown;
    [b.beton, b.acier, b.cuivre, b.enrobes, b.transportMarchandises,
     b.deplacementsPersonnel, b.energie, b.engins]
  }

  function SumClassique(rows: seq<Breakdown>): real {
    if rows == [] then 0.0 else rows[0].classique + SumClassique(rows[1..])
  }

  function SumEco(rows: seq<Breakdown>): real {
    if rows == [] then 0.0 else rows[0].eco + SumEco(rows[1..])
  }

  function SumDiff(rows: seq<Breakdown>): real {
    if rows == [] then 0.0 else rows[0].diff + SumDiff(rows[1..])
  }

  predicate AllConsistent(rows: seq<Breakdown>) {
    forall i :: 0 <= i < |rows| ==> rows[i].Consistent()
  }

  // ---------------------------------------------------------------------------
  // Properties of the calculation

  /** Every row the calculator produces, on both axes, has diff = eco - classique. */
  lemma BreakdownsConsistent(s: SimulationState)
    ensures forall c :: CostOf(Calculate(s), c).Consistent()
    ensures forall c :: CarbonOf(Calculate(s), c).Consistent()
    ensures Calculate(s).cout.breakdown.coutCarbone.Consistent()
    ensures AllConsistent(CostRows(Calculate(s))) && AllConsistent(CarbonRows(Calculate(s)))
  {
    var r := Calculate(s);
    forall c ensures CostOf(r, c).Consistent() && CarbonOf(r, c).Consistent() {
      match c
      case Beton =>
      case Acier =>
      case Cuivre =>
      case Enrobes =>
      case TransportMarchandises =>
      case DeplacementsPersonnel =>
      case Energie =>
      case Engins =>
    }
  }

  /** Each cost row of the calculation is the one the descriptor table prescribes. */
  lemma CostRowMatchesTable(s: SimulationState, c: Category)
    ensures CostOf(Calculate(s), c) == ReferenceCost(s, c)
  {
    match c
    case Beton =>
    case Acier =>
    case Cuivre =>
    case Enrobes =>
    case TransportMarchandises =>
    case DeplacementsPersonnel =>
    case Energie =>
    case Engins =>
  }

  /** Each carbon row of the calculation is the one the descriptor table prescribes. */
  lemma CarbonRowMatchesTable(s: SimulationState, c: Category)
    ensures CarbonOf(Calculate(s), c) == ReferenceCarbon(s, c)
  {
    match c
    case Beton =>
    case Acier =>
    case Cuivre =>
    case Enrobes =>
    case TransportMarchandises =>
    case DeplacementsPersonnel =>
    case Energie =>
    case Engins =>
  }

  /** A category with no quantity contributes nothing, whatever its prices or factors. */
  lemma ZeroQuantity(s: SimulationState, c: Category)
    requires Metered(c) && Quantity(s, c) == 0.0
    ensures CostOf(Calculate(s), c) == Breakdown(0.0, 0.0, 0.0)
    ensures CarbonOf(Calculate(s), c) == Breakdown(0.0, 0.0, 0.0)
  {
    CostRowMatchesTable(s, c);
    CarbonRowMatchesTable(s, c);
  }

  /** Eco energy is classic energy reduced by a fixed 20 %, on both axes. */
  lemma EnergyReduction(s: SimulationState)
    ensures CostOf(Calculate(s), Energie).eco == 0.8 * CostOf(Calculate(s), Energie).classique
    ensures CarbonOf(Calculate(s), Energie).eco == 0.8 * CarbonOf(Calculate(s), Energie).classique
    ensures CostOf(Calculate(s), Energie).diff == -0.2 * CostOf(Calculate(s), Energie).classique
  {
  }

  lemma {:induction false} SumOfEight(rows: seq<Breakdown>)
    requires |rows| == 8
    ensures SumClassique(rows) == rows[0].classique + rows[1].classique + rows[2].classique
      + rows[3].classique + rows[4].classique + rows[5].classique + rows[6].classique + rows[7].classique
    ensures SumEco(rows) == rows[0].eco + rows[1].eco + rows[2].eco
      + rows[3].eco + rows[4].eco + rows[5].eco + rows[6].eco + rows[7].eco
  {
    assert SumClassique(rows[8..]) == 0.0 && SumEco(rows[8..]) == 0.0;
    assert SumClassique(rows[7..]) == rows[7].classique && SumEco(rows[7..]) == rows[7].eco;
    assert SumClassique(rows[6..]) == rows[6].classique + SumClassique(rows[7..]);
    assert SumEco(rows[6..]) == rows[6].eco + SumEco(rows[7..]);
    assert SumClassique(rows[5..]) == rows[5].classique + SumClassique(rows[6..]);
    assert SumEco(rows[5..]) == rows[5].eco + SumEco(rows[6..]);
    assert SumClassique(rows[4..]) == rows[4].classique + SumClassique(rows[5..]);
    assert SumEco(rows[4..]) == rows[4].eco + SumEco(rows[5..]);
    assert SumClassique(rows[3..]) == rows[3].classique + SumClassique(rows[4..]);
    assert SumEco(rows[3..]) == rows[3].eco + SumEco(rows[4..]);
    assert SumClassique(rows[2..]) == rows[2].classique + SumClassique(rows[3..]);
    assert SumEco(rows[2..]) == rows[2].eco + SumEco(rows[3..]);
    assert SumClassique(rows[1..]) == rows[1].classique + SumClassique(rows[2..]);
    assert SumEco(rows[1..]) == rows[1].eco + SumEco(rows[2..]);
  }

  /**
    The cost totals are the sums of the eight category rows; equipment, at
    zero cost, leaves the seven-category sums of the source unchanged.
   */
  lemma CostTotalsAreSums(s: SimulationState)
    ensures Calculate(s).cout.totalClassique == SumClassique(CostRows(Calculate(s)))
    ensures Calculate(s).cout.totalEco == SumEco(CostRows(Calculate(s)))
    ensures CostOf(Calculate(s), Engins).classique == 0.0 && CostOf(Calculate(s), Engins).eco == 0.0
  {
    SumOfEight(CostRows(Calculate(s)));
  }

  /** The carbon totals are the sums of the eight category rows, equipment included. */
  lemma CarbonTotalsAreSums(s: SimulationState)
    ensures Calculate(s).carbone.totalClassique == SumClassique(CarbonRows(Calculate(s)))
    ensures Calculate(s).carbone.totalEco == SumEco(CarbonRows(Calculate(s)))
  {
    SumOfEight(CarbonRows(Calculate(s)));
  }

  /** Summing the gaps of consistent rows gives the gap of the sums. */
  lemma {:induction false} SumDiffIsGap(rows: seq<Breakdown>)
    requires AllConsistent(rows)
    ensures SumDiff(rows) == SumEco(rows) - SumClassique(rows)
  {
    if rows != [] {
      assert rows[0].Consistent();
      SumDiffIsGap(rows[1..]);
    }
  }

  /**
    The derived scalars: the surcharge is the eco cost over the classic cost;
    the carbon saving is classic minus eco emissions, i.e. minus the sum of
    the carbon gaps; its monetary value uses the carbon price; the adjusted
    eco cost deducts that value; the carbon-value cost row records it as a
    benefit of the eco scenario only.
   */
  lemma DerivedIdentities(s: SimulationState)
    ensures Calculate(s).cout.surcout == SumEco(CostRows(Calculate(s))) - SumClassique(CostRows(Calculate(s)))
    ensures Calculate(s).cout.surcout == SumDiff(CostRows(Calculate(s)))
    ensures Calculate(s).carbone.economieTCO2
              == SumClassique(CarbonRows(Calculate(s))) - SumEco(CarbonRows(Calculate(s)))
    ensures Calculate(s).carbone.economieTCO2 == -SumDiff(CarbonRows(Calculate(s)))
    ensures Calculate(s).carbone.economieEuros == Calculate(s).carbone.economieTCO2 * s.prixTonneCarbone
    ensures Calculate(s).cout.coutGlobalEcoAjuste == Calculate(s).cout.totalEco - Calculate(s).carbone.economieEuros
    ensures Calculate(s).cout.breakdown.coutCarbone
              == Breakdown(0.0, -Calculate(s).carbone.economieEuros, -Calculate(s).carbone.economieEuros)
  {
    var r := Calculate(s);
    CostTotalsAreSums(s);
    CarbonTotalsAreSums(s);
    BreakdownsConsistent(s);
    SumDiffIsGap(CostRows(r));
    SumDiffIsGap(CarbonRows(r));
  }

  /**
    The payback period: surcharge × lifetime / monetised saving when all three
    are positive, and then strictly positive; otherwise exactly the sentinel 0.
   */
  lemma PaybackGuard(s: SimulationState)
    ensures var r := Calculate(s);
      if r.cout.surcout > 0.0 && r.carbone.economieEuros > 0.0 && s.dureeDeVie > 0.0 then
        r.amortissement > 0.0
        && r.amortissement == r.cout.surcout * s.dureeDeVie / r.carbone.economieEuros
      else
        r.amortissement == 0.0
  {
  }

  /**
    A metered category with a non-negative quantity never emits more in the
    eco scenario than in the classic one, whatever the other parameters.
   */
  lemma MeteredEcoEmitsNoMore(s: SimulationState, c: Category)
    requires Metered(c)
    requires Quantity(s, c) >= 0.0
    ensures CarbonOf(Calculate(s), c).diff <= 0.0
  {
    FootprintsOrdered();
    CarbonRowMatchesTable(s, c);
    ScaledValueBelow(Quantity(s, c), FactorRates(c).classique, FactorRates(c).eco, EcoMultiplier(c));
  }

  /**
    A negative quantity, which the input form lets through, reverses the
    ordering: the eco scenario then emits strictly more for that category.
   */
  lemma NegativeQuantityEmitsMore(s: SimulationState, c: Category)
    requires Metered(c)
    requires Quantity(s, c) < 0.0
    ensures CarbonOf(Calculate(s), c).diff > 0.0
  {
    FootprintsOrdered();
    CarbonRowMatchesTable(s, c);
    NegativeScaledValueAbove(Quantity(s, c), FactorRates(c).classique, FactorRates(c).eco, EcoMultiplier(c));
  }

  /**
    With non-negative quantities every metered category emits no more in the
    eco scenario than in the classic one, so the carbon saving is at least
    the equipment saving.
   */
  lemma EcoEmitsNoMore(s: SimulationState)
    requires NonNegativeQuantities(s)
    ensures forall c :: Metered(c) ==> CarbonOf(Calculate(s), c).diff <= 0.0
    ensures Calculate(s).carbone.economieTCO2 >= s.co2EnginsClassique - s.co2EnginsEco
  {
    forall c | Metered(c) ensures CarbonOf(Calculate(s), c).diff <= 0.0 {
      MeteredEcoEmitsNoMore(s, c);
    }
    var r := Calculate(s);
    DerivedIdentities(s);
    BreakdownsConsistent(s);
    var rows := CarbonRows(r);
    assert rows[7].eco - rows[7].classique == s.co2EnginsEco - s.co2EnginsClassique;
    SumOfEight(rows);
  }

  lemma ScaledValueBelow(q: real, classique: real, eco: real, m: real)
    requires q >= 0.0 && 0.0 <= eco <= classique && 0.0 <= m <= 1.0
    ensures Value(q, eco) * m <= Value(q, classique)
  {
    var v := q * eco;
    assert v <= q * classique by {
      assert q * (classique - eco) >= 0.0;
    }
    assert v >= 0.0;
    assert v * m <= v by {
      assert v * (1.0 - m) >= 0.0;
    }
  }

  lemma NegativeScaledValueAbove(q: real, classique: real, eco: real, m: real)
    requires q < 0.0 && 0.0 < eco && 0.0 < m <= 1.0
    requires eco * m < classique
    ensures Value(q, eco) * m > Value(q, classique)
  {
    assert (q * eco) * m == q * (eco * m);
    assert q * (classique - eco * m) < 0.0;
  }
}
