/**
 * The records that flow through the pipeline. Field names follow the JSON
 * keys of the generation API and of the merged output; a pandas NaN or a
 * missing cell is `None`.
 */
module Records {
  import opened Wrappers

  /** One fuel / prime-mover measurement for one plant in one month, as the API returns it. */
  datatype RawRow = RawRow(
    period: string,
    plantCode: string,
    plantName: string,
    state: string,
    stateDescription: string,
    fuel2002: string,
    fuelTypeDescription: Option<string>,
    primeMover: string,
    grossGeneration: Option<real>,  // after `pd.to_numeric(errors='coerce')`
    grossGenerationUnits: string)

  /** One entry of an aggregated plant's `fuelTypes` breakdown. */
  datatype FuelEntry = FuelEntry(
    fuel2002: string,
    fuelTypeDescription: Option<string>,
    primeMover: string,
    generation: Option<real>)

  /** One record per plant code, built by `aggregate_plants`. */
  datatype AggregatedPlant = AggregatedPlant(
    period: string,
    plantCode: string,
    plantName: string,
    state: string,
    stateDescription: string,
    fuelTypeDescription: string,
    grossGeneration: real,
    grossGenerationUnits: string,
    fuelTypes: seq<FuelEntry>)

  /**
   * The columns of one reference-table row that the merge reads. `capacity`
   * holds the numeric per-fuel capacity cells that are present, keyed by
   * column name (`Coal_MW`, ...); `stateY` is the reference side's `State_y`.
   */
  datatype ReferenceRow = ReferenceRow(
    plantName: Option<string>,
    utilityName: Option<string>,
    streetAddress: Option<string>,
    city: Option<string>,
    stateY: Option<string>,
    zip: Option<string>,
    longitude: Option<real>,
    latitude: Option<real>,
    totalMw: Option<real>,
    capacity: map<string, real>,
    primSource: Option<string>,
    sourceDesc: Option<string>,
    techDesc: Option<string>,
    sectorName: Option<string>)

  /** What a left join yields on the reference side for a plant code with no match: all NaN. */
  const EmptyReference := ReferenceRow(None, None, None, None, None, None, None, None, None,
                                       map[], None, None, None, None)

  /** A merged record (`final_record` of `merge_with_csv`); `stateAbbr` is the column the geographic filter adds. */
  datatype EnrichedPlant = EnrichedPlant(
    plantCode: string,
    plantName: string,
    utilityName: Option<string>,
    address: Option<string>,
    longitude: Option<real>,
    latitude: Option<real>,
    state: string,
    stateDescription: string,
    period: string,
    grossGeneration: real,
    grossGenerationUnits: string,
    fuelTypeDescription: Option<string>,
    fuelTypes: seq<FuelEntry>,
    totalCapacityMW: Option<real>,
    capacityByType: map<string, real>,
    capacityFactorPercent: Option<real>,
    primarySource: Option<string>,
    sourceDescription: Option<string>,
    techDescription: Option<string>,
    sectorName: Option<string>,
    dataSource: string,
    stateAbbr: Option<string>)

  /** A merged record with its `capacityFactorFlag` column. */
  datatype FlaggedPlant = FlaggedPlant(plant: EnrichedPlant, capacityFactorFlag: string)
}
