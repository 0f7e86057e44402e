/**
 * The per-row body of `merge_with_csv`: a left join of the aggregated plants
 * against the reference table, the composite address, the sparse capacity
 * map, the field precedence, the `dataSource` tag and the capacity factor.
 */
module Merger {
  import opened Wrappers
  import opened Records
  import Strings
  import Seqs

  /** The reporting window is February 2025: 28 days of 24 hours. */
  const HoursPerDay: real := 24.0
  const DaysInPeriod: real := 28.0

  const MergedSource := "API_CSV_Merged"
  const ApiOnlySource := "API_Only"
  const AddressSeparator := ", "

  /** The per-fuel capacity columns of the reference table, in the order the merge visits them. */
  const CapacityColumns: seq<string> := [
    "Bat_MW", "Bio_MW", "Coal_MW", "Geo_MW", "Hydro_MW",
    "HydroPS_MW", "NG_MW", "Nuclear_MW", "Crude_MW",
    "Solar_MW", "Wind_MW", "Other_MW"]

  /**
   * `gen / (MW * 24 * 28) * 100`, defined only when both values are present
   * and the capacity is positive.
   */
  function CapacityFactor(generation: Option<real>, totalMw: Option<real>): (r: Option<real>)
    ensures r.Some? <==> totalMw.Some? && totalMw.value > 0.0 && generation.Some?
    ensures r.Some? ==> r.value * (totalMw.value * HoursPerDay * DaysInPeriod) == generation.value * 100.0
  {
    if totalMw.Some? && generation.Some? && totalMw.value > 0.0 then
      var maxPossibleGeneration := totalMw.value * HoursPerDay * DaysInPeriod;
      Some(generation.value / maxPossibleGeneration * 100.0)
    else None
  }

  /** 100 MW running for 28 days could produce 67200 MWh, so 33600 MWh is a factor of 50. */
  lemma CapacityFactorExample()
    ensures CapacityFactor(Some(33600.0), Some(100.0)) == Some(50.0)
  {
    var r := CapacityFactor(Some(33600.0), Some(100.0));
    assert r.value * 67200.0 == 3360000.0;
  }

  /** The factor is at most 100 exactly when generation does not exceed the theoretical maximum. */
  lemma CapacityFactorAtMostFull(generation: real, totalMw: real)
    requires totalMw > 0.0
    ensures CapacityFactor(Some(generation), Some(totalMw)).value <= 100.0
        <==> generation <= totalMw * HoursPerDay * DaysInPeriod
  {
    var maxGen := totalMw * HoursPerDay * DaysInPeriod;
    var cf := CapacityFactor(Some(generation), Some(totalMw)).value;
    assert cf * maxGen == generation * 100.0;
    assert maxGen > 0.0;
    if cf <= 100.0 {
      assert cf * maxGen <= 100.0 * maxGen;
    }
    if generation <= maxGen {
      assert cf * maxGen <= 100.0 * maxGen;
    }
  }

  /** `[v]` for a present cell, `[]` for a missing one. */
  function Part(cell: Option<string>): seq<string> {
    if cell.Some? then [cell.value] else []
  }

  /** The `address_parts` list: the present parts, in the order street, city, state, zip. */
  function AddressParts(ref: ReferenceRow): seq<string> {
    Part(ref.streetAddress) + Part(ref.city) + Part(ref.stateY) + Part(ref.zip)
  }

  /** Street, city, state and zip joined with ", ", skipping the missing ones; absent when all are missing. */
  function AddressOf(ref: ReferenceRow): (r: Option<string>)
    ensures r.None? <==> ref.streetAddress.None? && ref.city.None? && ref.stateY.None? && ref.zip.None?
  {
    var parts := AddressParts(ref);
    if |parts| > 0 then Some(Strings.Join(parts, AddressSeparator)) else None
  }

  /** With every part present, the address lists them in the order street, city, state, zip. */
  lemma AddressAllParts(ref: ReferenceRow)
    requires ref.streetAddress.Some? && ref.city.Some? && ref.stateY.Some? && ref.zip.Some?
    ensures AddressOf(ref) == Some(ref.streetAddress.value + ", " + ref.city.value + ", "
                                   + ref.stateY.value + ", " + ref.zip.value)
  {
    var parts := AddressParts(ref);
    assert parts == [ref.streetAddress.value, ref.city.value, ref.stateY.value, ref.zip.value];
    assert Strings.Join(parts[3..], ", ") == ref.zip.value;
    assert Strings.Join(parts[2..], ", ") == ref.stateY.value + ", " + ref.zip.value;
    assert Strings.Join(parts[1..], ", ") == ref.city.value + ", " + ref.stateY.value + ", " + ref.zip.value;
    assert Strings.Join(parts, ", ") == ref.streetAddress.value + ", " + Strings.Join(parts[1..], ", ");
    assert AddressOf(ref) == Some(Strings.Join(parts, ", "));
    var street, city, state, zip := ref.streetAddress.value, ref.city.value, ref.stateY.value, ref.zip.value;
    assert street + ", " + (city + ", " + state + ", " + zip) == street + ", " + city + ", " + state + ", " + zip;
  }

  /** A single present part is the whole address, with no separator. */
  lemma AddressSinglePart(ref: ReferenceRow)
    requires ref.streetAddress.None? && ref.stateY.None? && ref.zip.None? && ref.city.Some?
    ensures AddressOf(ref) == Some(ref.city.value)
  {
    assert AddressParts(ref) == [ref.city.value];
  }

  /** The capacity map the loop over `columns` builds from one reference row's cells. */
  function CapacityFrom(cells: map<string, real>, columns: seq<string>): (r: map<string, real>)
    ensures forall c :: c in r <==> c in columns && c in cells && cells[c] > 0.0
    ensures forall c :: c in r ==> r[c] == cells[c]
    decreases |columns|
  {
    if |columns| == 0 then map[]
    else
      var c := columns[|columns| - 1];
      var m := CapacityFrom(cells, columns[..|columns| - 1]);
      assert forall d :: d in columns <==> d in columns[..|columns| - 1] || d == c;
      if c in cells && cells[c] > 0.0 then m[c := cells[c]] else m
  }

  /** The `dataSource` tag: the reference name is present exactly when a reference row matched. */
  function DataSource(ref: ReferenceRow): (r: string)
    ensures r == MergedSource <==> ref.plantName.Some?
    ensures r == ApiOnlySource <==> ref.plantName.None?
  {
    if ref.plantName.Some? then MergedSource else ApiOnlySource
  }

  /** The reference row a left join pairs with `code`: the matching row, or all NaN. */
  function Lookup(table: map<string, ReferenceRow>, code: string): ReferenceRow {
    if code in table then table[code] else EmptyReference
  }

  /** The `final_record` built for one joined row. */
  function EnrichedOf(plant: AggregatedPlant, ref: ReferenceRow): EnrichedPlant {
    EnrichedPlant(
      plantCode := plant.plantCode,
      plantName := ref.plantName.GetOr(plant.plantName),
      utilityName := ref.utilityName,
      address := AddressOf(ref),
      longitude := ref.longitude,
      latitude := ref.latitude,
      state := ref.stateY.GetOr(plant.state),
      stateDescription := plant.stateDescription,
      period := plant.period,
      grossGeneration := plant.grossGeneration,
      grossGenerationUnits := plant.grossGenerationUnits,
      fuelTypeDescription := Some(plant.fuelTypeDescription),
      fuelTypes := plant.fuelTypes,
      totalCapacityMW := ref.totalMw,
      capacityByType := CapacityFrom(ref.capacity, CapacityColumns),
      capacityFactorPercent := CapacityFactor(Some(plant.grossGeneration), ref.totalMw),
      primarySource := ref.primSource,
      sourceDescription := ref.sourceDesc,
      techDescription := ref.techDesc,
      sectorName := ref.sectorName,
      dataSource := DataSource(ref),
      stateAbbr := None)
  }

  /**
   * The loop body of `merge_with_csv`: appends the present address parts and
   * fills the capacity map column by column.
   */
  method MergeRow(plant: AggregatedPlant, ref: ReferenceRow) returns (e: EnrichedPlant)
    ensures e == EnrichedOf(plant, ref)
  {
    var addressParts: seq<string> := [];
    if ref.streetAddress.Some? { addressParts := addressParts + [ref.streetAddress.value]; }
    if ref.city.Some? { addressParts := addressParts + [ref.city.value]; }
    if ref.stateY.Some? { addressParts := addressParts + [ref.stateY.value]; }
    if ref.zip.Some? { addressParts := addressParts + [ref.zip.value]; }
    assert addressParts == AddressParts(ref);
    var address := if |addressParts| > 0 then Some(Strings.Join(addressParts, AddressSeparator)) else None;

    var capacity: map<string, real> := map[];
    for i := 0 to |CapacityColumns|
      invariant capacity == CapacityFrom(ref.capacity, CapacityColumns[..i])
    {
      var column := CapacityColumns[i];
      if column in ref.capacity && ref.capacity[column] > 0.0 {
        capacity := capacity[column := ref.capacity[column]];
      }
      assert CapacityColumns[..i + 1][..i] == CapacityColumns[..i];
    }
    assert CapacityColumns[..|CapacityColumns|] == CapacityColumns;

    var dataSource := DataSource(ref);
    var capacityFactor := CapacityFactor(Some(plant.grossGeneration), ref.totalMw);
    e := EnrichedPlant(plant.plantCode, ref.plantName.GetOr(plant.plantName), ref.utilityName,
                       address, ref.longitude, ref.latitude, ref.stateY.GetOr(plant.state),
                       plant.stateDescription, plant.period, plant.grossGeneration,
                       plant.grossGenerationUnits, Some(plant.fuelTypeDescription), plant.fuelTypes,
                       ref.totalMw, capacity, capacityFactor, ref.primSource, ref.sourceDesc,
                       ref.techDesc, ref.sectorName, dataSource, None);
  }

  /** The joined records in input order, before the final sort. */
  function Joined(plants: seq<AggregatedPlant>, table: map<string, ReferenceRow>): seq<EnrichedPlant> {
    seq(|plants|, i requires 0 <= i < |plants| =>
      EnrichedOf(plants[i], Lookup(table, plants[i].plantCode)))
  }

  function MergedGeneration(e: EnrichedPlant): real {
    e.grossGeneration
  }

  /**
   * `merge_with_csv` after the CSV is loaded: every aggregated plant appears
   * exactly once, joined with its reference row, and the result is sorted by
   * generation, largest first.
   */
  method MergeWithReference(plants: seq<AggregatedPlant>, table: map<string, ReferenceRow>)
    returns (out: seq<EnrichedPlant>)
    ensures Seqs.SortedDesc(out, MergedGeneration)
    ensures multiset(out) == multiset(Joined(plants, table))
    ensures |out| == |plants|
    ensures forall i :: 0 <= i < |plants| ==> Joined(plants, table)[i] in out
  {
    var finalData: seq<EnrichedPlant> := [];
    for i := 0 to |plants|
      invariant |finalData| == i
      invariant forall m :: 0 <= m < i ==> finalData[m] == Joined(plants, table)[m]
    {
      var row := MergeRow(plants[i], Lookup(table, plants[i].plantCode));
      finalData := finalData + [row];
    }
    assert finalData == Joined(plants, table);
    out := Seqs.SortDesc(finalData, MergedGeneration);
    Seqs.PermutationKeepsElements(out, finalData);
  }

  /**
   * A plant code with no reference row is tagged "API_Only", keeps the API's
   * name and state, and every reference-derived field is absent.
   */
  lemma UnmatchedPlantIsApiOnly(plant: AggregatedPlant, table: map<string, ReferenceRow>)
    requires plant.plantCode !in table
    ensures var e := EnrichedOf(plant, Lookup(table, plant.plantCode));
      && e.dataSource == "API_Only"
      && e.plantName == plant.plantName && e.state == plant.state
      && e.address.None? && e.utilityName.None? && e.longitude.None? && e.latitude.None?
      && e.totalCapacityMW.None? && e.capacityByType == map[] && e.capacityFactorPercent.None?
      && e.primarySource.None? && e.sourceDescription.None? && e.techDescription.None?
      && e.sectorName.None?
  {
    assert forall c :: c !in CapacityFrom(EmptyReference.capacity, CapacityColumns);
  }

  /**
   * Field precedence on a match: a present reference name and state replace
   * the API's; an absent one leaves the API value in place.
   */
  lemma ReferenceFieldsWin(plant: AggregatedPlant, ref: ReferenceRow)
    ensures EnrichedOf(plant, ref).plantName == if ref.plantName.Some? then ref.plantName.value else plant.plantName
    ensures EnrichedOf(plant, ref).state == if ref.stateY.Some? then ref.stateY.value else plant.state
    ensures EnrichedOf(plant, ref).dataSource == "API_CSV_Merged" <==> ref.plantName.Some?
  {
  }

  /** The merged capacity map holds only listed columns with a positive value, and all of them. */
  lemma CapacityByTypeSparse(plant: AggregatedPlant, ref: ReferenceRow, column: string)
    ensures column in EnrichedOf(plant, ref).capacityByType
        <==> column in CapacityColumns && column in ref.capacity && ref.capacity[column] > 0.0
    ensures column in EnrichedOf(plant, ref).capacityByType ==>
      EnrichedOf(plant, ref).capacityByType[column] == ref.capacity[column]
  {
  }
}
