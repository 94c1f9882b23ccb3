/**
  The constant tables the calculator is instantiated with: the emission
  factors per unit of material, transport and energy, and the default
  parameter record used to bootstrap a simulation.
 */
module Data {
  import opened Types

  const projectTypes: seq<string> := ["Travaux", "Services", "Fourniture"]

  /** Emission factors in tonnes of CO2 per unit (m³, tonne, km or kWh). */
  datatype CarbonFootprints = CarbonFootprints(
    betonClassique: real,
    betonBasCarbone: real,
    acierClassique: real,
    acierBasCarbone: real,
    cuivreClassique: real,
    cuivreRecycle: real,
    enrobeChaud: real,
    enrobeFroid: real,
    camionDiesel: real,
    camionElectrique: real,
    voitureEssence: real,
    voitureElectrique: real,
    autobusElectrique: real,
    kwhDiesel: real
  )

  /** Converts a per-unit factor given in kilograms to tonnes. */
  function KgToTonnes(kg: real): (t: real)
    ensures t * 1000.0 == kg
    ensures kg > 0.0 ==> 0.0 < t < kg
  {
    kg / 1000.0
  }

  const carbonFootprints: CarbonFootprints := CarbonFootprints(
    betonClassique := 0.150,
    betonBasCarbone := 0.075,
    acierClassique := 1.8,
    acierBasCarbone := 0.4,
    cuivreClassique := 4.5,
    cuivreRecycle := 1.5,
    enrobeChaud := 0.05,
    enrobeFroid := 0.02,
    camionDiesel := KgToTonnes(0.25),
    camionElectrique := KgToTonnes(0.05),
    voitureEssence := KgToTonnes(0.18),
    voitureElectrique := KgToTonnes(0.02),
    autobusElectrique := KgToTonnes(0.03),
    kwhDiesel := KgToTonnes(0.7)
  )

  const defaultSimulationState: SimulationState := SimulationState(
    projectType := "Travaux",
    volumeBeton := 1000.0,
    poidsAcier := 50.0,
    poidsCuivre := 5.0,
    volumeEnrobes := 500.0,
    kmTransportMarchandises := 10000.0,
    kmDeplacementsPersonnel := 5000.0,
    kwhEnergie := 20000.0,
    prixKwhDiesel := 0.25,
    prixBetonClassique := 150.0,
    prixBetonBasCarbone := 180.0,
    prixAcierClassique := 865.0,
    prixAcierBasCarbone := 925.0,
    prixEnrobeChaud := 80.0,
    prixEnrobeFroid := 90.0,
    prixCuivreClassique := 9000.0,
    prixCuivreRecycle := 8500.0,
    prixKmCamionDiesel := 1.5,
    prixKmCamionElectrique := 1.2,
    prixKmVoitureEssence := 0.5,
    prixKmVoitureElectrique := 0.3,
    prixKmAutobusElectrique := 1.0,
    co2EnginsClassique := 10.0,
    co2EnginsEco := 5.0,
    prixTonneCarbone := 100.0,
    dureeDeVie := 50.0,
    pctEcoBeton := 50.0,
    pctEcoAcier := 50.0,
    pctEcoCuivre := 50.0,
    pctEcoEnrobes := 50.0
  )

  /** Every alternative factor lies strictly below its conventional counterpart. */
  predicate AlternativesLower(f: CarbonFootprints) {
    && f.betonBasCarbone < f.betonClassique
    && f.acierBasCarbone < f.acierClassique
    && f.cuivreRecycle < f.cuivreClassique
    && f.enrobeFroid < f.enrobeChaud
    && f.camionElectrique < f.camionDiesel
    && f.voitureElectrique < f.voitureEssence
  }

  /** Every factor of the table is strictly positive. */
  predicate AllPositive(f: CarbonFootprints) {
    && f.betonClassique > 0.0 && f.betonBasCarbone > 0.0
    && f.acierClassique > 0.0 && f.acierBasCarbone > 0.0
    && f.cuivreClassique > 0.0 && f.cuivreRecycle > 0.0
    && f.enrobeChaud > 0.0 && f.enrobeFroid > 0.0
    && f.camionDiesel > 0.0 && f.camionElectrique > 0.0
    && f.voitureEssence > 0.0 && f.voitureElectrique > 0.0
    && f.autobusElectrique > 0.0 && f.kwhDiesel > 0.0
  }

  /** A blend percentage within the range of the form's sliders. */
  predicate IsPercentage(p: real) {
    0.0 <= p <= 100.0
  }

  /** The seven category quantities are not negative. */
  predicate NonNegativeQuantities(s: SimulationState) {
    && s.volumeBeton >= 0.0 && s.poidsAcier >= 0.0 && s.poidsCuivre >= 0.0
    && s.volumeEnrobes >= 0.0 && s.kmTransportMarchandises >= 0.0
    && s.kmDeplacementsPersonnel >= 0.0 && s.kwhEnergie >= 0.0
  }

  /**
    A physically meaningful parameter record: nothing negative, a positive
    lifetime, blends within [0, 100]. This is an assumption, not a guarantee
    of the program. The input form bounds the material prices and the carbon
    price with sliders, but the quantities, equipment tonnages and lifetime are
    free number fields (negatives accepted, a cleared field reads as 0), and
    the optimiser's blend percentages are merged without bounds.
   */
  predicate Admissible(s: SimulationState) {
    && NonNegativeQuantities(s)
    && s.prixKwhDiesel >= 0.0
    && s.prixBetonClassique >= 0.0 && s.prixBetonBasCarbone >= 0.0
    && s.prixAcierClassique >= 0.0 && s.prixAcierBasCarbone >= 0.0
    && s.prixEnrobeChaud >= 0.0 && s.prixEnrobeFroid >= 0.0
    && s.prixCuivreClassique >= 0.0 && s.prixCuivreRecycle >= 0.0
    && s.prixKmCamionDiesel >= 0.0 && s.prixKmCamionElectrique >= 0.0
    && s.prixKmVoitureEssence >= 0.0 && s.prixKmVoitureElectrique >= 0.0
    && s.prixKmAutobusElectrique >= 0.0
    && s.co2EnginsClassique >= 0.0 && s.co2EnginsEco >= 0.0
    && s.prixTonneCarbone >= 0.0
    && s.dureeDeVie > 0.0
    && IsPercentage(s.pctEcoBeton) && IsPercentage(s.pctEcoAcier)
    && IsPercentage(s.pctEcoCuivre) && IsPercentage(s.pctEcoEnrobes)
  }

  /** The alternative of every material and vehicle emits less than the conventional one. */
  lemma FootprintsOrdered()
    ensures AlternativesLower(carbonFootprints)
    ensures AllPositive(carbonFootprints)
  {
  }

  /** The per-km and per-kWh factors are the kilogram figures divided by 1000. */
  lemma FootprintsInTonnes()
    ensures carbonFootprints.camionDiesel * 1000.0 == 0.25
    ensures carbonFootprints.camionElectrique * 1000.0 == 0.05
    ensures carbonFootprints.voitureEssence * 1000.0 == 0.18
    ensures carbonFootprints.voitureElectrique * 1000.0 == 0.02
    ensures carbonFootprints.autobusElectrique * 1000.0 == 0.03
    ensures carbonFootprints.kwhDiesel * 1000.0 == 0.7
  {
  }

  /** The default record is admissible, with every blend at an even 50 %. */
  lemma DefaultAdmissible()
    ensures Admissible(defaultSimulationState)
    ensures defaultSimulationState.projectType in projectTypes
    ensures defaultSimulationState.pctEcoBeton == defaultSimulationState.pctEcoAcier
         == defaultSimulationState.pctEcoCuivre == defaultSimulationState.pctEcoEnrobes == 50.0
  {
  }
}
