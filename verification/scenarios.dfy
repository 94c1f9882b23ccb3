/**
  Worked scenarios: the calculation on the default parameter record, and
  the payback rule on a few hand-picked figures.
 */
module Scenarios {
  import opened Types
  import opened Data
  import opened Calculator

  /**
    On the default record the eco design costs 30 500 more and saves 185.6
    tonnes of CO2, worth 18 560 at 100 per tonne, so the payback branch is
    taken: 30 500 × 50 / 18 560 years.
   */
  lemma DefaultScenario()
    ensures Calculate(defaultSimulationState).cout.totalClassique == 300750.0
    ensures Calculate(defaultSimulationState).cout.totalEco == 331250.0
    ensures Calculate(defaultSimulationState).cout.surcout == 30500.0
    ensures Calculate(defaultSimulationState).carbone.totalClassique == 314.9
    ensures Calculate(defaultSimulationState).carbone.totalEco == 129.3
    ensures Calculate(defaultSimulationState).carbone.economieTCO2 == 185.6
    ensures Calculate(defaultSimulationState).carbone.economieEuros == 18560.0
    ensures Calculate(defaultSimulationState).cout.coutGlobalEcoAjuste == 312690.0
    ensures Calculate(defaultSimulationState).amortissement == 30500.0 * 50.0 / 18560.0
    ensures Calculate(defaultSimulationState).amortissement > 0.0
  {
    PaybackGuard(defaultSimulationState);
  }

  /** A surcharge of 5000 recouped at 1000 over 50 years, i.e. 20 a year, takes 250 years. */
  lemma PaybackExample()
    ensures Amortissement(5000.0, 1000.0, 50.0) == 250.0
  {
  }

  /** When the eco design is cheaper there is no payback period, whatever the savings. */
  lemma CheaperEcoHasNoPayback(surcout: real, economieEuros: real, dureeDeVie: real)
    requires surcout <= 0.0
    ensures Amortissement(surcout, economieEuros, dureeDeVie) == 0.0
  {
  }
}
