/** `aggregate_plants`: one record per plant code, with a per-row fuel breakdown. */
module Aggregator {
  import opened Wrappers
  import opened Records
  import Strings
  import Seqs

  const MixedFuel := "Mixed"
  const FuelSeparator := ", "

  /** The `plantCode` column. */
  function Codes(rows: seq<RawRow>): (r: seq<string>)
    ensures |r| == |rows| && forall i :: 0 <= i < |rows| ==> r[i] == rows[i].plantCode
  {
    seq(|rows|, i requires 0 <= i < |rows| => rows[i].plantCode)
  }

  /** The group keys of `df.groupby('plantCode')`, which pandas visits in sorted order. */
  function GroupKeys(rows: seq<RawRow>): seq<string> {
    Strings.SortedUnique(Codes(rows))
  }

  /** The rows of one group, in their original order. */
  function GroupRows(rows: seq<RawRow>, code: string): seq<RawRow> {
    Seqs.Filter(rows, (row: RawRow) => row.plantCode == code)
  }

  /** `group['gross-generation'].sum()`, which skips NaN. */
  function TotalGeneration(group: seq<RawRow>): real
    decreases |group|
  {
    if |group| == 0 then 0.0
    else group[0].grossGeneration.GetOr(0.0) + TotalGeneration(group[1..])
  }

  function EntryOf(row: RawRow): FuelEntry {
    FuelEntry(row.fuel2002, row.fuelTypeDescription, row.primeMover, row.grossGeneration)
  }

  /** The `fuel_breakdown` list: one entry per group row, in row order. */
  function Breakdown(group: seq<RawRow>): seq<FuelEntry> {
    seq(|group|, i requires 0 <= i < |group| => EntryOf(group[i]))
  }

  /** The sum of the breakdown's generations, NaN counted as nothing. */
  function SumEntries(entries: seq<FuelEntry>): real
    decreases |entries|
  {
    if |entries| == 0 then 0.0
    else entries[0].generation.GetOr(0.0) + SumEntries(entries[1..])
  }

  /** `group['fuelTypeDescription'].dropna()`. */
  function PresentDescriptions(group: seq<RawRow>): (r: seq<string>)
    ensures forall d :: d in r <==> exists i :: 0 <= i < |group| && group[i].fuelTypeDescription == Some(d)
    decreases |group|
  {
    if |group| == 0 then []
    else
      var rest := PresentDescriptions(group[1..]);
      assert forall i :: 1 <= i < |group| ==> group[i] == group[1..][i - 1];
      match group[0].fuelTypeDescription
      case Some(d) => [d] + rest
      case None => rest
  }

  /** `', '.join(sorted(unique descriptions))`, or `'Mixed'` when the group has none. */
  function CombinedFuelDescription(group: seq<RawRow>): string {
    var descriptions := Strings.SortedUnique(PresentDescriptions(group));
    if |descriptions| > 0 then Strings.Join(descriptions, FuelSeparator) else MixedFuel
  }

  /** The aggregated record of plant `code`; its identity fields come from the group's first row. */
  function PlantOf(rows: seq<RawRow>, code: string): AggregatedPlant
    requires |GroupRows(rows, code)| > 0
  {
    var group := GroupRows(rows, code);
    var info := group[0];
    AggregatedPlant(info.period, code, info.plantName, info.state, info.stateDescription,
                    CombinedFuelDescription(group), TotalGeneration(group),
                    info.grossGenerationUnits, Breakdown(group))
  }

  /** Every group key has at least one row. */
  lemma KeyHasRows(rows: seq<RawRow>, code: string)
    requires code in GroupKeys(rows)
    ensures |GroupRows(rows, code)| > 0
  {
    var i :| 0 <= i < |rows| && Codes(rows)[i] == code;
    assert rows[i] in GroupRows(rows, code);
  }

  /** The records before sorting, one per group key. */
  function PlantRecords(rows: seq<RawRow>): seq<AggregatedPlant> {
    var keys := GroupKeys(rows);
    seq(|keys|, k requires 0 <= k < |keys| =>
      KeyHasRows(rows, keys[k]);
      PlantOf(rows, keys[k]))
  }

  function Generation(p: AggregatedPlant): real {
    p.grossGeneration
  }

  /** The inner loop of `aggregate_plants`: one breakdown entry per group row, in row order. */
  method BuildBreakdown(group: seq<RawRow>) returns (breakdown: seq<FuelEntry>)
    ensures |breakdown| == |group|
    ensures forall m :: 0 <= m < |group| ==>
      breakdown[m] == FuelEntry(group[m].fuel2002, group[m].fuelTypeDescription,
                                group[m].primeMover, group[m].grossGeneration)
  {
    breakdown := [];
    for j := 0 to |group|
      invariant |breakdown| == j
      invariant forall m :: 0 <= m < j ==> breakdown[m] == EntryOf(group[m])
    {
      var row := group[j];
      breakdown := breakdown + [FuelEntry(row.fuel2002, row.fuelTypeDescription, row.primeMover, row.grossGeneration)];
    }
  }

  /** The body of the group loop of `aggregate_plants` for one plant code. */
  method BuildRecord(rows: seq<RawRow>, code: string) returns (p: AggregatedPlant)
    requires code in GroupKeys(rows)
    ensures |GroupRows(rows, code)| > 0 && p == PlantOf(rows, code)
  {
    var group := GroupRows(rows, code);
    KeyHasRows(rows, code);
    var info := group[0];
    var total := TotalGeneration(group);
    var combined := CombinedFuelDescription(group);
    var breakdown := BuildBreakdown(group);
    p := AggregatedPlant(info.period, code, info.plantName, info.state, info.stateDescription,
                         combined, total, info.grossGenerationUnits, breakdown);
  }

  /**
   * `aggregate_plants`: builds each plant's record (the inner loop appends its
   * fuel breakdown), then sorts by generation, largest first.
   */
  method AggregatePlants(rows: seq<RawRow>) returns (out: seq<AggregatedPlant>)
    ensures Seqs.SortedDesc(out, Generation)
    ensures multiset(out) == multiset(PlantRecords(rows))
  {
    var keys := Strings.SortedUnique(Codes(rows));
    var aggregated: seq<AggregatedPlant> := [];
    for k := 0 to |keys|
      invariant |aggregated| == k
      invariant forall m :: 0 <= m < k ==> aggregated[m] == PlantRecords(rows)[m]
    {
      var record := BuildRecord(rows, keys[k]);
      aggregated := aggregated + [record];
    }
    assert aggregated == PlantRecords(rows);
    out := Seqs.SortDesc(aggregated, Generation);
  }

  /** The breakdown's generations add up to the plant's total. */
  lemma {:induction false} BreakdownSumsToTotal(group: seq<RawRow>)
    ensures SumEntries(Breakdown(group)) == TotalGeneration(group)
    decreases |group|
  {
    if |group| > 0 {
      BreakdownSumsToTotal(group[1..]);
      assert Breakdown(group)[1..] == Breakdown(group[1..]);
    }
  }

  /**
   * Exactly one record per distinct plant code: the records' codes are pairwise
   * different, every row's code has a record, and every record's code has rows.
   */
  lemma OneRecordPerPlant(rows: seq<RawRow>)
    ensures forall i, j :: 0 <= i < j < |PlantRecords(rows)| ==>
      PlantRecords(rows)[i].plantCode != PlantRecords(rows)[j].plantCode
    ensures forall i :: 0 <= i < |rows| ==>
      exists k :: 0 <= k < |PlantRecords(rows)| && PlantRecords(rows)[k].plantCode == rows[i].plantCode
    ensures forall k :: 0 <= k < |PlantRecords(rows)| ==>
      exists i :: 0 <= i < |rows| && rows[i].plantCode == PlantRecords(rows)[k].plantCode
  {
    var keys := GroupKeys(rows);
    var records := PlantRecords(rows);
    forall i, j | 0 <= i < j < |records| ensures records[i].plantCode != records[j].plantCode {
      Strings.LexIrreflexive(keys[i]);
    }
    forall i | 0 <= i < |rows|
      ensures exists k :: 0 <= k < |records| && records[k].plantCode == rows[i].plantCode
    {
      assert Codes(rows)[i] in keys;
      var k :| 0 <= k < |keys| && keys[k] == rows[i].plantCode;
      assert records[k].plantCode == keys[k];
    }
    forall k | 0 <= k < |records|
      ensures exists i :: 0 <= i < |rows| && rows[i].plantCode == records[k].plantCode
    {
      assert keys[k] in Codes(rows);
    }
  }

  /**
   * The documented invariants of one aggregated record: the total sums the
   * group's generation, the breakdown has one entry per group row in row order
   * and sums to the total, and name, state, period and units are those of the
   * first row of `rows` that carries the code.
   */
  lemma PlantRecordInvariant(rows: seq<RawRow>, code: string, first: nat)
    requires first < |rows| && rows[first].plantCode == code
    requires forall i :: 0 <= i < first ==> rows[i].plantCode != code
    ensures |GroupRows(rows, code)| > 0
    ensures PlantOf(rows, code).grossGeneration == TotalGeneration(GroupRows(rows, code))
    ensures SumEntries(PlantOf(rows, code).fuelTypes) == PlantOf(rows, code).grossGeneration
    ensures |PlantOf(rows, code).fuelTypes| == |GroupRows(rows, code)|
    ensures forall m :: 0 <= m < |GroupRows(rows, code)| ==>
      PlantOf(rows, code).fuelTypes[m] == EntryOf(GroupRows(rows, code)[m])
    ensures var p := PlantOf(rows, code);
      && p.plantName == rows[first].plantName && p.state == rows[first].state
      && p.stateDescription == rows[first].stateDescription
      && p.period == rows[first].period && p.grossGenerationUnits == rows[first].grossGenerationUnits
  {
    var p := (row: RawRow) => row.plantCode == code;
    assert rows == rows[..first] + rows[first..];
    Seqs.FilterConcat(rows[..first], rows[first..], p);
    Seqs.FilterNone(rows[..first], p);
    assert GroupRows(rows, code)[0] == rows[first];
    BreakdownSumsToTotal(GroupRows(rows, code));
  }

  /**
   * The combined description is the join of the sorted distinct present
   * descriptions, whichever sorted listing of them one takes, or "Mixed".
   */
  lemma CombinedFuelDescriptionSpec(group: seq<RawRow>, listing: seq<string>)
    requires Strings.StrictlySorted(listing)
    requires forall d :: d in listing <==> exists i :: 0 <= i < |group| && group[i].fuelTypeDescription == Some(d)
    ensures CombinedFuelDescription(group) == if |listing| == 0 then "Mixed" else Strings.Join(listing, ", ")
  {
    Strings.StrictlySortedUnique(Strings.SortedUnique(PresentDescriptions(group)), listing);
  }
}
