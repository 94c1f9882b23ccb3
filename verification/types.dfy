/**
  The record shapes exchanged with the scenario calculator: the simulation
  parameters it reads and the results it builds. All numbers are modelled
  as mathematical reals.
 */
module Types {

  /** The project parameters as the calculator and the default record use them. */
  datatype SimulationState = SimulationState(
    projectType: string,
    // Quantities (one per category, shared by both scenarios)
    volumeBeton: real,              // m³ of concrete
    poidsAcier: real,               // tonnes of steel
    poidsCuivre: real,              // tonnes of copper
    volumeEnrobes: real,            // m³ of asphalt
    kmTransportMarchandises: real,  // km of freight transport
    kmDeplacementsPersonnel: real,  // km of personnel travel
    kwhEnergie: real,               // kWh of site energy
    // Unit prices
    prixKwhDiesel: real,
    prixBetonClassique: real,
    prixBetonBasCarbone: real,
    prixAcierClassique: real,
    prixAcierBasCarbone: real,
    prixEnrobeChaud: real,
    prixEnrobeFroid: real,
    prixCuivreClassique: real,
    prixCuivreRecycle: real,
    prixKmCamionDiesel: real,
    prixKmCamionElectrique: real,
    prixKmVoitureEssence: real,
    prixKmVoitureElectrique: real,
    prixKmAutobusElectrique: real,
    // Site-equipment emissions, supplied directly in tonnes of CO2
    co2EnginsClassique: real,
    co2EnginsEco: real,
    // Global parameters
    prixTonneCarbone: real,         // currency per tonne of CO2
    dureeDeVie: real,               // structure lifetime in years
    // Blend percentages of the eco variant (read by the form, not by the calculator)
    pctEcoBeton: real,
    pctEcoAcier: real,
    pctEcoCuivre: real,
    pctEcoEnrobes: real
  )

  /** One category on one axis: the classic value, the eco value and their gap. */
  datatype Breakdown = Breakdown(classique: real, eco: real, diff: real)
  {
    /** The gap is the eco value measured against the classic one. */
    predicate Consistent() {
      diff == eco - classique
    }
  }

  /** Cost rows per category, plus the monetised carbon savings row. */
  datatype CostBreakdowns = CostBreakdowns(
    beton: Breakdown,
    acier: Breakdown,
    cuivre: Breakdown,
    enrobes: Breakdown,
    transportMarchandises: Breakdown,
    deplacementsPersonnel: Breakdown,
    energie: Breakdown,
    engins: Breakdown,
    coutCarbone: Breakdown
  )

  /** Carbon rows per category (tonnes of CO2). */
  datatype CarbonBreakdowns = CarbonBreakdowns(
    beton: Breakdown,
    acier: Breakdown,
    cuivre: Breakdown,
    enrobes: Breakdown,
    transportMarchandises: Breakdown,
    deplacementsPersonnel: Breakdown,
    energie: Breakdown,
    engins: Breakdown
  )

  datatype CostResults = CostResults(
    totalClassique: real,
    totalEco: real,
    surcout: real,
    coutGlobalEcoAjuste: real,
    breakdown: CostBreakdowns
  )

  datatype CarbonResults = CarbonResults(
    totalClassique: real,
    totalEco: real,
    economieTCO2: real,
    economieEuros: real,
    breakdown: CarbonBreakdowns
  )

  datatype CalculationResults = CalculationResults(
    cout: CostResults,
    carbone: CarbonResults,
    amortissement: real
  )
}
