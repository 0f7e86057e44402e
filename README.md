# Power-plant generation pipeline: a Dafny model

This project models the deterministic core of a pipeline for U.S. power-plant data.
The pipeline takes monthly EIA generation rows and works through these steps:

1. It drops aggregate and placeholder rows.
2. It folds the remaining rows into one record per plant.
3. It left-joins those records with a plant reference table. This adds an address, capacities and ownership, and computes a 28-day capacity factor.
4. It can narrow the records to a set of states.
5. It flags each plant's capacity factor, first with a rule of keyword checks on the fuel description and then with an optional AI pass run in batches.

The AI pass and its bookkeeping live in `deepseek_enrichment.py`; everything else is in `main.py`.

The model has these modules, one per stage:

| module | covers |
|---|---|
| `Wrappers`, `Strings`, `Seqs` | What pandas and Python supply: NaN as `Option`, `str.lower`, `in` as substring search, code-point string order, `', '.join`, `sorted(set(...))`, boolean-mask filtering, and a descending sort. |
| `Records` | The row and record types. |
| `Cleaner` | `clean_data` |
| `Aggregator` | `aggregate_plants` |
| `Merger` | The per-row body of `merge_with_csv` and its final sort. |
| `GeoFilter` | `apply_geographic_filter` |
| `Classifier` | `flag_basic_capacity_factor` |
| `Enrichment` | What `enrich_with_deepseek` does with the records once they are loaded. |

Several steps of the source are loops that build lists, dictionaries and counters. Each of them is a `method` with a loop, proved against a function over the input:

- `AggregatePlants`, `BuildBreakdown` and `BuildRecord`
- `MergeRow` and `MergeWithReference`
- `CollectAnalysisData`, `ProcessBatches`, `FallbackFlags`, `ApplyFlags` and `EnrichWithAi`

The properties are proved about those functions. The pure mask filters and the `if`/`elif` classifier are functions.

A pandas NaN is `None` and a present value is `Some`. Generation, capacity and the capacity factor are `real`. `groupby` visits its keys in sorted order, and the model builds that order with `Strings.SortedUnique`. The reference table is a map keyed by plant code. A plant the table does not list is joined with `Records.EmptyReference`, a row in which every column is NaN; that is what pandas' left join produces.

The remote AI call is the parameter `analyze`. It receives the batch index and the batch, and returns the parsed flag map and the success bit.

A failed batch falls back to a per-item flag rule. `Fallback`, `ApplyBatch` and `FlagsAfter` take that rule as the parameter `rule`. The pass itself always uses `rule := ItemFlag`, which is `flag_basic_capacity_factor` of the item's capacity factor and fuel type. The map lemmas hold for any rule.

Some behaviour of the code is easy to misread. The model follows the code in each case:

- **Fallback flags are prefixed too.** The fallback loop of a failed batch writes the basic flag into `flagged_plants` (`deepseek_enrichment.py:204-209`). The final loop then prefixes every entry of that map with `AI_` (`deepseek_enrichment.py:216-219`). So a plant in a failed batch does not keep its unprefixed basic flag. The lemma `Enrichment.AllBatchesFailed` states this: when every call fails, each eligible record ends with `"AI_"` followed by its own basic flag.
- **Sort ties are unspecified.** `sort_values` with its default algorithm is not stable (`main.py:272-274`, `main.py:417-419`). The model states only that the output is sorted non-increasing by generation and is a permutation of its input.
- **The groupby output is ordered by key.** `groupby('plantCode')` (`main.py:226`) visits the plant codes in sorted order, and the model builds that order.
- **The `State_y` branches are normally dead.** `pd.merge` adds `_x`/`_y` only to the names both sides share, keeping their case. The aggregated frame has a lower-case `state` column, so `row.get('State_y')` (`main.py:318`, `main.py:373`) finds a value only when the reference file has a column literally named `State_y`. The model keeps that column as the optional field `stateY` of the reference row. When it is missing, every record keeps the API state and the address has no state part.
- **The period is always 28 days.** The capacity factor is computed over a fixed 28-day, 24-hour period (`main.py:355`), whatever the reporting period.
- **A missing fuel description reads as `"nan"`.** `str(row.get('fuelTypeDescription', ''))` (`deepseek_enrichment.py:30`) turns a NaN description into the text `"nan"`. That text contains no keyword, so such a plant is `Normal` whenever it has a capacity factor (`Classifier.MissingFuelIsNormal`).

## Model

| member | source | states |
|---|---|---|
| Seqs.Filter | main.py:206 | A boolean-mask selection keeps only rows that pass the predicate, each taken from the input, and keeps every row that passes. |
| Seqs.SortDesc | main.py:272-274 | The sorted frame is non-increasing in the sort key and is a permutation (same multiset) of the input. |
| Strings.ContainsIff | deepseek_enrichment.py:33 | Python's `sub in s` holds exactly when `sub` occurs at some position of `s`. |
| Strings.SortedUnique | main.py:239-241 | `sorted(unique(...))` is strictly increasing in code-point order and holds exactly the input's values. |
| Strings.StrictlySortedUnique | main.py:241 | Two strictly sorted listings of the same set of strings are equal, so the sorted distinct listing is unique. |
| Cleaner.Clean | main.py:198-206 | Every kept row has neither `fuel2002` nor `primeMover` equal to `ALL`, has a present non-zero generation and a plant code other than `99999`; every row passing all three masks is kept. |
| Cleaner.CleanCounts | main.py:206 | A row that passes the masks occurs as often in the output as in the input; a row that fails occurs not at all. |
| Cleaner.CleanConcat | main.py:206 | Cleaning a concatenation is the concatenation of the cleaned parts, so kept rows stay in their original order. |
| Cleaner.CleanIdempotent | main.py:198-206 | Cleaning already-cleaned rows removes nothing. |
| Aggregator.PresentDescriptions | main.py:239 | `dropna()` keeps a description exactly when some row of the group has it present. |
| Aggregator.KeyHasRows | main.py:226-231 | Every group key visited by the loop has at least one row. |
| Aggregator.OneRecordPerPlant | main.py:226-268 | There is one record per distinct plant code: record codes are pairwise distinct, every row's code has a record, and every record's code has rows. |
| Aggregator.PlantRecordInvariant | main.py:233-266 | A plant's total is the sum of its rows' present generations. The breakdown has one entry per row, in row order, copying fuel code, description, prime mover and generation, and the entries sum to the total. Name, state, state description, period and units come from the group's first row. |
| Aggregator.BreakdownSumsToTotal | main.py:236-253 | The breakdown entries' present generations sum to the group's total generation, NaN counting as nothing. |
| Aggregator.CombinedFuelDescriptionSpec | main.py:238-243 | The combined description is `"Mixed"` when no row has a description, and otherwise the `", "`-join of the strictly sorted distinct present descriptions. |
| Aggregator.BuildBreakdown | main.py:246-253 | The inner loop's list holds, position by position, the fuel entry of each group row. |
| Aggregator.BuildRecord | main.py:233-268 | One pass of the group loop produces the record that `PlantOf` specifies for that plant code. |
| Aggregator.AggregatePlants | main.py:226-274 | The output is sorted non-increasing by total generation and is a permutation of the one-record-per-plant listing. |
| Merger.CapacityFactor | main.py:345-357 | The capacity factor is present exactly when `Total_MW` is present and positive and generation is present. When present, it times `MW·24·28` equals `generation·100`. |
| Merger.CapacityFactorExample | main.py:355-357 | 33600 MWh at 100 MW gives exactly 50. |
| Merger.CapacityFactorAtMostFull | main.py:355-357 | The factor is at most 100 exactly when generation does not exceed `MW·24·28`. |
| Merger.AddressOf | main.py:313-323 | The address is `None` exactly when street, city, state and zip are all missing. |
| Merger.AddressAllParts | main.py:313-323 | With all four parts present the address is `street, city, state, zip` in that order. |
| Merger.AddressSinglePart | main.py:316-323 | With only the city present the address is the city alone, with no separator. |
| Merger.CapacityFrom | main.py:325-336 | A column is in the capacity map exactly when it is listed, present and positive, and its value is the cell's value. |
| Merger.CapacityByTypeSparse | main.py:327-336 | A merged record's `capacityByType` holds exactly the listed capacity columns with a present positive value, each with that value. |
| Merger.DataSource | main.py:338-340 | The tag is `"API_CSV_Merged"` exactly when the reference name is present, and `"API_Only"` exactly when it is missing. |
| Merger.ReferenceFieldsWin | main.py:338-374 | Name and state come from the reference row when present and from the API record otherwise; the tag is `"API_CSV_Merged"` exactly when the reference name is present. |
| Merger.UnmatchedPlantIsApiOnly | main.py:300-306 | A plant whose code the table does not list keeps its API name and state, is tagged `"API_Only"`, and every reference-derived field is missing or empty. |
| Merger.MergeRow | main.py:311-413 | The per-row loop body (address parts, capacity loop, precedence, tag and factor) produces the record `EnrichedOf` specifies. |
| Merger.MergeWithReference | main.py:300-419 | Every aggregated plant appears once, merged with its reference row. The output has the input's length, holds every joined record, is a permutation of the joined listing, and is sorted non-increasing by generation. |
| GeoFilter.ApplyGeographicFilter | main.py:78-102 | `'all'` or no list returns the input unchanged. Otherwise every kept record has a mapped abbreviation in the list that is stored in its `stateAbbr`, and every record whose abbreviation is in the list is kept. |
| GeoFilter.GeographicFilterCounts | main.py:99-102 | A selected record occurs in the output exactly as often as it occurs, tagged, in the input; an unselected record never occurs. |
| GeoFilter.GeographicFilterConcat | main.py:99-102 | Filtering distributes over concatenation of record lists, so kept records keep their order. |
| Classifier.BasicFlag | deepseek_enrichment.py:17-49 | The flag is always one of the seven labels `No_Data`, `Normal`, and `Unusual_` followed by Nuclear, Fossil, Hydro, Wind or Solar. |
| Classifier.NoDataIffMissing | deepseek_enrichment.py:26-27 | The flag is `No_Data` exactly when the capacity factor is missing, whatever the fuel. |
| Classifier.MissingFuelIsNormal | deepseek_enrichment.py:29-49 | A NaN description reads as `"nan"`, which matches no category, so the flag with a capacity factor present is `Normal`. |
| Classifier.KeywordsAsOccurrences | deepseek_enrichment.py:33-47 | Each category test holds exactly when one of its keywords occurs in the lower-cased description. |
| Classifier.NuclearRule | deepseek_enrichment.py:33-35 | When the description mentions nuclear, the flag is `Unusual_Nuclear` exactly outside [70, 110], and `Normal` otherwise. |
| Classifier.FossilRule | deepseek_enrichment.py:36-38 | Without nuclear but with gas or coal, the flag is `Unusual_Fossil` exactly outside [20, 90], and `Normal` otherwise. |
| Classifier.HydroRule | deepseek_enrichment.py:39-41 | With no earlier keyword but hydro or water, the flag is `Unusual_Hydro` exactly outside [10, 80], and `Normal` otherwise. |
| Classifier.WindRule | deepseek_enrichment.py:42-44 | With no earlier keyword but wind, the flag is `Unusual_Wind` exactly outside [5, 60], and `Normal` otherwise. |
| Classifier.SolarRule | deepseek_enrichment.py:45-47 | With no earlier keyword but solar or sun, the flag is `Unusual_Solar` exactly outside [5, 50], and `Normal` otherwise. |
| Classifier.UnmatchedIsNormal | deepseek_enrichment.py:33-49 | A description with no keyword of any category is `Normal` for every capacity factor. |
| Classifier.NaturalGasMentionsGas | deepseek_enrichment.py:36 | Text mentioning "natural gas" also mentions "gas", so the fossil test is the test for gas or coal. |
| Classifier.NuclearBeforeFossil | deepseek_enrichment.py:33-38 | "Natural Gas, Nuclear" at 95% is `Normal`: the nuclear branch is taken first, even though 95 is outside the fossil range. |
| Classifier.NaturalGasIsNotNuclear | deepseek_enrichment.py:33 | The lower-cased "Natural Gas" does not mention nuclear. |
| Classifier.LowGasIsUnusualFossil | deepseek_enrichment.py:36-38 | "Natural Gas" at 15% is `Unusual_Fossil`. |
| Enrichment.AnalysisData | deepseek_enrichment.py:159-170 | Every item comes from a record with both a capacity factor and a fuel description, and every such record contributes its item. |
| Enrichment.AnalysisDataOne | deepseek_enrichment.py:160-170 | One record contributes exactly its own item when it has both a capacity factor and a fuel description, and nothing otherwise. |
| Enrichment.AnalysisDataConcat | deepseek_enrichment.py:160-170 | Selection distributes over concatenation, so items keep record order. With `AnalysisDataOne` this fixes `analysis_data` completely: one item per eligible record, in record order. |
| Enrichment.CollectAnalysisData | deepseek_enrichment.py:159-170 | The selection loop builds exactly `AnalysisData` of the records. |
| Enrichment.BatchesPartition | deepseek_enrichment.py:175-187 | The slices laid end to end give back `analysis_data`. Each slice is non-empty and at most 25 long, and there are `ceil(n/25)` of them. |
| Enrichment.BatchAt | deepseek_enrichment.py:185-187 | Batch `k` is the slice `[25k, min(25k+25, n))`. |
| Enrichment.BatchCountBound | deepseek_enrichment.py:185 | Batch `k` exists exactly when `25k < n`, so the loop visits every batch once. |
| Enrichment.FallbackKeys | deepseek_enrichment.py:204-209 | After a failed batch the keys are the old keys plus the batch's plant names, and the other entries are unchanged. |
| Enrichment.FallbackLastWins | deepseek_enrichment.py:204-209 | A name's fallback flag is the rule applied to the last plant of that name in the batch. |
| Enrichment.FallbackConcat | deepseek_enrichment.py:204-209 | The fallback over two item lists in sequence equals the fallback over their concatenation. |
| Enrichment.ApplyBatchUntouched | deepseek_enrichment.py:196-209 | A round that does not write a name leaves whether it is a key, and its flag, as they were. |
| Enrichment.FlagsAfterUntouched | deepseek_enrichment.py:185-209 | Rounds that do not write a name leave its entry as it was when those rounds began. |
| Enrichment.LastWriteWins | deepseek_enrichment.py:196-197 | A flag from a successful batch is the name's final flag when no later round writes that name: a later batch overwrites an earlier one. |
| Enrichment.FailedBatchFallsBack | deepseek_enrichment.py:200-209 | A plant in a failed batch, last of its name there and not written later, ends with the fallback rule of its own capacity factor and fuel type. |
| Enrichment.NeverWrittenStaysBasic | deepseek_enrichment.py:177-219 | A name no round writes is not a key, and a record with that name keeps its basic flag. |
| Enrichment.AllFailedIsFallback | deepseek_enrichment.py:185-209 | When every round fails, the map is the fallback over all batches in order. |
| Enrichment.AnalysisNamesDistinct | deepseek_enrichment.py:159-170 | Distinct record names give distinct item names. |
| Enrichment.FallbackDistinct | deepseek_enrichment.py:204-209 | Over items with distinct names, the fallback's keys are exactly their names, each mapped to its own item's rule. |
| Enrichment.AllFailedMap | deepseek_enrichment.py:159-209 | With every call failing and distinct names, a record's name is a key exactly when it is eligible, mapped to its own item's rule. |
| Enrichment.ItemFlagOfRecord | deepseek_enrichment.py:154-208 | The flag recomputed from an item equals the basic flag of the record it came from. |
| Enrichment.AllBatchesFailed | deepseek_enrichment.py:154-219 | With every call failing and distinct names, an eligible record ends with `"AI_"` followed by its own basic flag and every other record keeps its basic flag. |
| Enrichment.FallbackFlags | deepseek_enrichment.py:204-209 | The fallback loop builds exactly `Fallback` of the batch with `ItemFlag`. |
| Enrichment.ProcessBatches | deepseek_enrichment.py:175-209 | The batch loop's map is `FlagsAfter` of the batches. The success count is the number of items in successful batches (`success` true and a non-empty map), and the two counters sum to the number of items. |
| Enrichment.ApplyFlags | deepseek_enrichment.py:216-219 | A record whose name is a key gets `"AI_"` followed by that key's flag, a record whose name is not a key keeps its flag, and keys naming no record change nothing. |
| Enrichment.EnrichWithAi | deepseek_enrichment.py:154-219 | Each flagged record is the input record with its final flag. That flag is `"AI_"` followed by the pass's map entry for its name, or else its basic flag. The counters sum to the number of eligible records. |

## Left out

- `get_eia_data` (`main.py:110-157`) is left out: it is an HTTP request with credential loading and response parsing. The model starts from rows that are already parsed.
- `save_data`, `pd.read_csv`, `pd.read_json` and `to_json` are left out because they are file I/O. Inputs are sequences and maps that are already loaded.
- `get_user_geographic_filter` and its region table (`main.py:17-64`) are left out because they are an interactive prompt. The filter takes its type and list as parameters.
- `main` is left out: it only orchestrates and prints.
- The internals of `analyze_batch_with_deepseek` are left out, because they are remote I/O. That covers the prompt text, the `requests.post` call, JSON extraction from the reply and exception swallowing. Its result is the parameter `analyze`.
- `time.sleep`, every `print` and the summary statistics are left out because they are output and pacing only.
- The `except` branches of `merge_with_csv` (`main.py:423-428`) are left out. They return the unmerged API frame when the reference file is missing or a library call raises, and neither file reading nor those library failures are modelled.
- The `except` branch of `enrich_with_deepseek` (`deepseek_enrichment.py:240-244`) is left out. It prints a message and returns `None` without saving anything, after a failure in file I/O or a library call, which the model does not have.
- The early exit of `enrich_with_deepseek` when `DS_API_KEY` is not set (`deepseek_enrichment.py:137-144`) is left out, because credentials come from the environment. It prints a message and returns before any record is read, so nothing is flagged. The model starts once the key is present and the records are loaded.
- `pd.to_numeric` and `float()` are left out because they parse text into numbers. Generation and capacity arrive as `Option<real>`, with an unparseable value as `None`.
- Floating point is left out: values are exact reals, so rounding in the capacity-factor division is not captured.
- `str.lower` is modelled on ASCII letters only, because the model has no Unicode case mapping.
- The case where the reference file has a lower-case `state` column is left out. Then `pd.merge` renames both sides to `state_x` and `state_y`, and `row.get('state')` (`main.py:374`) finds nothing, so the record's state is NaN. `EnrichedPlant.state` is a string, so the model cannot produce that NaN.
- A numeric `Zip` is not converted by `str()`: address parts are strings already.
- `GeoFilter.ApplyGeographicFilter` does not model that the source also adds a `stateAbbr` column to the caller's frame in place (`main.py:99`). Only the returned records carry the abbreviation.
- `Seqs.SortDesc`, `Aggregator.AggregatePlants` and `Merger.MergeWithReference` state no tie order, because `sort_values` with its default algorithm is not stable.
- `Merger.MergeWithReference` assumes one reference row per plant code, because the table is a map. Pandas would repeat a plant that the reference file lists twice.
- `Enrichment.LastWriteWins`, `Enrichment.FailedBatchFallsBack` and `Enrichment.AllBatchesFailed` only cover names that no later round writes, or distinct record names; they do not describe other overlaps. Any other overlap is still determined by `FlagsAfter`, which `EnrichWithAi` is proved against.
