/**
 * The reference data the calculators read: regional energy prices and
 * heating degree days, CO2 intensity per heating source and the default
 * upgrade cost per square metre. It exists twice, as the worker's `CONFIG`
 * object and as the backend's `Settings`; both are fixed for the lifetime of
 * the process.
 */
module Config {

  datatype ReferenceConfig = ReferenceConfig(
    energyPrices: map<string, real>,       // EUR per kWh, by region
    heatingDegreeDays: map<string, real>,  // K-days per year, by region
    co2Intensity: map<string, real>,       // kg CO2 per kWh, by heating source
    defaultInsulationCostPerSqm: real      // EUR per m2
  )

  /** The three Belgian regions. */
  const Regions: set<string> := {"Vlaams", "Waals", "Brussels-Hoofdstedelijk"}

  /** The four heating sources. */
  const HeatingSources: set<string> := {"gas", "oil", "electric", "heat_pump"}

  /** The worker's `CONFIG` object. */
  const WorkerConfig: ReferenceConfig := ReferenceConfig(
    map["Vlaams" := 0.35, "Waals" := 0.33, "Brussels-Hoofdstedelijk" := 0.34],
    map["Vlaams" := 2800.0, "Waals" := 3000.0, "Brussels-Hoofdstedelijk" := 2850.0],
    map["gas" := 0.201, "oil" := 0.264, "electric" := 0.166, "heat_pump" := 0.055],
    45.0
  )

  /** The backend's `settings` (the table part; the .env loading is not modelled). */
  const BackendSettings: ReferenceConfig := ReferenceConfig(
    map["Vlaams" := 0.35, "Waals" := 0.33, "Brussels-Hoofdstedelijk" := 0.34],
    map["Vlaams" := 2800.0, "Waals" := 3000.0, "Brussels-Hoofdstedelijk" := 2850.0],
    map["gas" := 0.201, "oil" := 0.264, "electric" := 0.166, "heat_pump" := 0.055],
    45.0
  )

  /**
   * What the calculators rely on: the two regional tables share the region
   * keys, every heating-degree-day figure and every intensity is positive,
   * every default price lies in the accepted price range (0, 2], and the
   * default cost per m2 is non-negative.
   */
  ghost predicate WellFormed(cfg: ReferenceConfig) {
    && cfg.energyPrices.Keys == Regions
    && cfg.heatingDegreeDays.Keys == Regions
    && cfg.co2Intensity.Keys == HeatingSources
    && (forall r :: r in cfg.heatingDegreeDays ==> cfg.heatingDegreeDays[r] > 0.0)
    && (forall r :: r in cfg.energyPrices ==> 0.0 < cfg.energyPrices[r] <= 2.0)
    && (forall h :: h in cfg.co2Intensity ==> cfg.co2Intensity[h] > 0.0)
    && cfg.defaultInsulationCostPerSqm >= 0.0
  }

  /** Both copies of the reference data are well formed, and they are the same data. */
  lemma ReferenceDataWellFormed()
    ensures WellFormed(WorkerConfig) && WellFormed(BackendSettings)
    ensures WorkerConfig == BackendSettings
  {
  }

  /** The exact key sets of the region and heating-source tables. */
  lemma TableKeys(cfg: ReferenceConfig)
    requires cfg == BackendSettings || cfg == WorkerConfig
    ensures cfg.energyPrices.Keys == cfg.heatingDegreeDays.Keys == {"Vlaams", "Waals", "Brussels-Hoofdstedelijk"}
    ensures cfg.co2Intensity.Keys == {"gas", "oil", "electric", "heat_pump"}
  {
  }

  /** Waals is the coldest region and Vlaams the mildest; the default cost is 45 EUR/m2. */
  lemma ClimateAndCostConstants(cfg: ReferenceConfig)
    requires cfg == BackendSettings || cfg == WorkerConfig
    ensures cfg.heatingDegreeDays["Waals"] > cfg.heatingDegreeDays["Brussels-Hoofdstedelijk"] > cfg.heatingDegreeDays["Vlaams"] > 0.0
    ensures cfg.defaultInsulationCostPerSqm == 45.0
  {
  }

  /** A heat pump has the smallest CO2 intensity of all heating sources, below gas. */
  lemma HeatPumpLeastIntensive(cfg: ReferenceConfig)
    requires cfg == BackendSettings || cfg == WorkerConfig
    ensures forall h :: h in cfg.co2Intensity ==> cfg.co2Intensity["heat_pump"] <= cfg.co2Intensity[h]
    ensures cfg.co2Intensity["heat_pump"] < cfg.co2Intensity["gas"]
  {
  }
}
